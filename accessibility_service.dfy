// The accessibility service: its settings and their defaults, the live
// announcement region, global keyboard shortcuts, roving tabindex over a
// widget's items, and the stack of stored focus targets.
//
// The document is an input: elements are opaque ids, what a selector query
// finds is given in a `Dom` record, and every `focus()` call on a known
// element is appended to the `focusCalls` log (roving tabindex returns the
// index of the item it focuses instead, its items being an array). The root element's class list is the `rootClasses`
// field; a keyboard listener on the document is an entry of `listeners`.
// Storage writes, `matchMedia` and the announcement timer are inputs or
// explicit methods.

module Accessibility {
  import opened JsCore

  datatype FontSize = Normal | Large | Xl

  datatype Settings = Settings(reduceMotion: bool, highContrast: bool, fontSize: FontSize,
                               screenReaderOptimized: bool, keyboardNavigation: bool)

  /** A `Partial<AccessibilitySettings>`: None for a key that is not supplied. */
  datatype SettingsPatch = SettingsPatch(reduceMotion: Option<bool>, highContrast: Option<bool>,
                                         fontSize: Option<FontSize>, screenReaderOptimized: Option<bool>,
                                         keyboardNavigation: Option<bool>)

  const NoChanges := SettingsPatch(None, None, None, None, None)

  function DefaultSettings(): (s: Settings)
    ensures !s.reduceMotion && !s.highContrast && !s.screenReaderOptimized
    ensures s.fontSize == Normal && s.keyboardNavigation
  {
    Settings(false, false, Normal, false, true)
  }

  /** `getStoredSettings`: the parsed stored settings, or the defaults when
      nothing is stored or it does not parse. */
  function StoredSettings(stored: Option<Settings>): (s: Settings)
    ensures stored.None? ==> s == DefaultSettings()
    ensures stored.Some? ==> s == stored.value
  {
    if stored.Some? then stored.value else DefaultSettings()
  }

  function Pick<T>(given: Option<T>, current: T): T
  {
    if given.Some? then given.value else current
  }

  /** `{ ...settings, ...newSettings }`. */
  function Merge(s: Settings, p: SettingsPatch): (r: Settings)
    ensures p.reduceMotion.Some? ==> r.reduceMotion == p.reduceMotion.value
    ensures p.reduceMotion.None? ==> r.reduceMotion == s.reduceMotion
    ensures p.highContrast.Some? ==> r.highContrast == p.highContrast.value
    ensures p.highContrast.None? ==> r.highContrast == s.highContrast
    ensures p.fontSize.Some? ==> r.fontSize == p.fontSize.value
    ensures p.fontSize.None? ==> r.fontSize == s.fontSize
    ensures p.screenReaderOptimized.Some? ==> r.screenReaderOptimized == p.screenReaderOptimized.value
    ensures p.screenReaderOptimized.None? ==> r.screenReaderOptimized == s.screenReaderOptimized
    ensures p.keyboardNavigation.Some? ==> r.keyboardNavigation == p.keyboardNavigation.value
    ensures p.keyboardNavigation.None? ==> r.keyboardNavigation == s.keyboardNavigation
  {
    Settings(Pick(p.reduceMotion, s.reduceMotion), Pick(p.highContrast, s.highContrast),
             Pick(p.fontSize, s.fontSize), Pick(p.screenReaderOptimized, s.screenReaderOptimized),
             Pick(p.keyboardNavigation, s.keyboardNavigation))
  }

  /** Two successive updates: a key from the later one wins. */
  function Then(p: SettingsPatch, q: SettingsPatch): SettingsPatch
  {
    SettingsPatch(if q.reduceMotion.Some? then q.reduceMotion else p.reduceMotion,
                  if q.highContrast.Some? then q.highContrast else p.highContrast,
                  if q.fontSize.Some? then q.fontSize else p.fontSize,
                  if q.screenReaderOptimized.Some? then q.screenReaderOptimized else p.screenReaderOptimized,
                  if q.keyboardNavigation.Some? then q.keyboardNavigation else p.keyboardNavigation)
  }

  /** An empty update changes nothing, repeating an update changes nothing
      more, and two updates amount to one with the later keys winning. */
  lemma MergeLaws(s: Settings, p: SettingsPatch, q: SettingsPatch)
    ensures Merge(s, NoChanges) == s
    ensures Merge(Merge(s, p), p) == Merge(s, p)
    ensures Merge(Merge(s, p), q) == Merge(s, Then(p, q))
  {
  }

  /** The class `font-size-${fontSize}` added for a size other than 'normal'. */
  function FontSizeClasses(f: FontSize): set<string>
  {
    match f
    case Normal => {}
    case Large => {"font-size-large"}
    case Xl => {"font-size-xl"}
  }

  /** The classes `applySettings` adds to the root element. */
  function ClassesFor(s: Settings): (r: set<string>)
    ensures "reduce-motion" in r <==> s.reduceMotion
    ensures "high-contrast" in r <==> s.highContrast
    ensures "screen-reader-optimized" in r <==> s.screenReaderOptimized
    ensures ("font-size-large" in r <==> s.fontSize == Large) && ("font-size-xl" in r <==> s.fontSize == Xl)
  {
    (if s.reduceMotion then {"reduce-motion"} else {})
    + (if s.highContrast then {"high-contrast"} else {})
    + FontSizeClasses(s.fontSize)
    + (if s.screenReaderOptimized then {"screen-reader-optimized"} else {})
  }

  // ---------------------------------------------------------------- keys

  /** The pressed modifiers, in the fixed order Ctrl, Alt, Shift, Meta. */
  function Pressed(names: seq<string>, down: seq<bool>): (r: seq<string>)
    requires |names| == |down|
    ensures |r| <= |names|
    ensures forall m :: m in r ==> m in names
    decreases |names|
  {
    if names == [] then []
    else (if down[0] then [names[0]] else []) + Pressed(names[1..], down[1..])
  }

  function Modifiers(ctrl: bool, alt: bool, shift: bool, meta: bool): seq<string>
  {
    Pressed(["Ctrl", "Alt", "Shift", "Meta"], [ctrl, alt, shift, meta])
  }

  /** The pressed modifiers are the ones held down, each once, in the
      order Ctrl, Alt, Shift, Meta. */
  lemma {:induction false} ModifiersInOrder(ctrl: bool, alt: bool, shift: bool, meta: bool)
    ensures Modifiers(ctrl, alt, shift, meta) ==
            (if ctrl then ["Ctrl"] else []) + (if alt then ["Alt"] else []) +
            (if shift then ["Shift"] else []) + (if meta then ["Meta"] else [])
    ensures Modifiers(ctrl, alt, shift, meta) == [] <==> !(ctrl || alt || shift || meta)
  {
    var n0, d0 := ["Ctrl", "Alt", "Shift", "Meta"], [ctrl, alt, shift, meta];
    var n1, d1 := ["Alt", "Shift", "Meta"], [alt, shift, meta];
    var n2, d2 := ["Shift", "Meta"], [shift, meta];
    var n3, d3 := ["Meta"], [meta];
    assert n0[1..] == n1 && d0[1..] == d1 && n1[1..] == n2 && d1[1..] == d2;
    assert n2[1..] == n3 && d2[1..] == d3 && n3[1..] == [] && d3[1..] == [];
    var a, b, c, d := (if ctrl then ["Ctrl"] else []), (if alt then ["Alt"] else []),
                      (if shift then ["Shift"] else []), (if meta then ["Meta"] else []);
    assert Pressed(n3, d3) == d + [];
    assert Pressed(n2, d2) == c + d;
    assert Pressed(n1, d1) == b + (c + d);
    assert Pressed(n0, d0) == a + (b + (c + d));
    assert a + (b + (c + d)) == a + b + c + d;
  }

  /** The combination string: the pressed modifiers, then the key, joined by '+'. */
  function KeyCombo(ctrl: bool, alt: bool, shift: bool, meta: bool, key: string): string
  {
    Join(Modifiers(ctrl, alt, shift, meta) + [key], "+")
  }

  /** Without modifiers the combination is the key itself; with any, it is
      longer and holds a '+', so 'Escape' and 'F6' match only unmodified
      presses. */
  lemma {:induction false} KeyComboShape(ctrl: bool, alt: bool, shift: bool, meta: bool, key: string)
    ensures !(ctrl || alt || shift || meta) ==> KeyCombo(ctrl, alt, shift, meta, key) == key
    ensures (ctrl || alt || shift || meta) ==> |KeyCombo(ctrl, alt, shift, meta, key)| > |key|
    ensures (ctrl || alt || shift || meta) ==> '+' in KeyCombo(ctrl, alt, shift, meta, key)
    ensures (ctrl || alt || shift || meta) ==>
              KeyCombo(ctrl, alt, shift, meta, key) != "Escape" && KeyCombo(ctrl, alt, shift, meta, key) != "F6"
  {
    var mods := Modifiers(ctrl, alt, shift, meta);
    ModifiersInOrder(ctrl, alt, shift, meta);
    if ctrl || alt || shift || meta {
      JoinSnoc(mods, key, "+");
      var combo := KeyCombo(ctrl, alt, shift, meta, key);
      var head := Join(mods, "+");
      assert combo == head + "+" + key;
      assert combo[|head|] == '+';
      assert '+' !in "Escape" && '+' !in "F6";
    } else {
      assert mods + [key] == [key];
    }
  }

  /** Alt alone puts "Alt+" before the key: Alt+1 and Alt+2 are the
      skip-link shortcuts. */
  lemma {:induction false} KeyComboAlt(key: string)
    ensures KeyCombo(false, true, false, false, key) == "Alt+" + key
    ensures KeyCombo(false, true, false, false, "1") == "Alt+1"
    ensures KeyCombo(false, true, false, false, "2") == "Alt+2"
  {
    ModifiersInOrder(false, true, false, false);
    assert Modifiers(false, true, false, false) == ["Alt"];
    JoinSnoc(["Alt"], key, "+");
    JoinSnoc(["Alt"], "1", "+");
    JoinSnoc(["Alt"], "2", "+");
  }

  datatype Shortcut = SkipToMain | SkipToNavigation | Escape | CycleRegions

  /** What the two skip shortcuts announce. */
  const SkipToMainMessage := "Skipped to main content"
  const SkipToNavigationMessage := "Skipped to navigation"

  /** The shortcut table `setupKeyboardNavigation` installs. */
  const ShortcutTable: map<string, Shortcut> :=
    map["Alt+1" := SkipToMain, "Alt+2" := SkipToNavigation, "Escape" := Escape, "F6" := CycleRegions]

  /** Roving navigation's target from `current` among `n` items, or None for
      a key it does not handle. (Both sums are non-negative, so JavaScript's
      `%` agrees with Dafny's here.) */
  function RovingTarget(current: nat, n: nat, key: string): (r: Option<nat>)
    requires current < n
    ensures r.Some? ==> r.value < n
    ensures r.None? <==> key !in {"ArrowRight", "ArrowDown", "ArrowLeft", "ArrowUp", "Home", "End"}
    ensures key == "Home" ==> r == Some(0)
    ensures key == "End" ==> r == Some(n - 1)
  {
    if key == "ArrowRight" || key == "ArrowDown" then Some((current + 1) % n)
    else if key == "ArrowLeft" || key == "ArrowUp" then Some((current - 1 + n) % n)
    else if key == "Home" then Some(0)
    else if key == "End" then Some(n - 1)
    else None
  }

  /** Forward then back (and back then forward) returns to the same item,
      wrap-around included; forward from the last item reaches the first. */
  lemma RovingRoundTrip(i: nat, n: nat)
    requires i < n
    ensures var f := RovingTarget(i, n, "ArrowRight").value; RovingTarget(f, n, "ArrowLeft") == Some(i)
    ensures var b := RovingTarget(i, n, "ArrowUp").value; RovingTarget(b, n, "ArrowDown") == Some(i)
    ensures i == n - 1 ==> RovingTarget(i, n, "ArrowRight") == Some(0)
    ensures i == 0 ==> RovingTarget(i, n, "ArrowLeft") == Some(n - 1)
  {
    ModOfSmall(i + 1, n);
    var f := (i + 1) % n;
    ModOfSmall(f - 1 + n, n);
    ModOfSmall(i - 1 + n, n);
    var b := (i - 1 + n) % n;
    ModOfSmall(b + 1, n);
  }

  /** The tabindex values after a roving move to `target`. */
  function TabIndexes(n: nat, target: nat): (r: seq<string>)
    ensures |r| == n
    ensures forall i :: 0 <= i < n ==> (r[i] == "0" <==> i == target)
    ensures forall i :: 0 <= i < n ==> r[i] == "0" || r[i] == "-1"
  {
    seq(n, i requires 0 <= i < n => if i == target then "0" else "-1")
  }

  // ---------------------------------------------------------------- document

  type Element = nat

  datatype Listener = BoundKeydown | UnboundKeydown

  datatype Priority = Polite | Assertive | Off

  /** A focusable region, with what its label is computed from. */
  datatype Region = Region(element: Element, ariaLabel: Option<string>, ariaLabelledBy: Option<string>, tagName: string)

  /** `getRegionLabel`: aria-label, else aria-labelledby, else the tag name in lower case. */
  function RegionLabel(r: Region): string
  {
    if r.ariaLabel.Some? && r.ariaLabel.value != "" then r.ariaLabel.value
    else if r.ariaLabelledBy.Some? && r.ariaLabelledBy.value != "" then r.ariaLabelledBy.value
    else ToLower(r.tagName)
  }

  /** What the shortcut handlers query: the main and navigation landmarks,
      whether a dialog is open, the regions in document order with the index
      of the first one holding the active element, and document membership
      of elements. */
  datatype Dom = Dom(main: Option<Element>, nav: Option<Element>, openModal: bool,
                     regions: seq<Region>, activeRegion: Option<nat>, inDocument: Element -> bool)

  predicate WellFormed(dom: Dom)
  {
    dom.activeRegion.Some? ==> dom.activeRegion.value < |dom.regions|
  }

  // ---------------------------------------------------------------- listeners

  /** `removeEventListener` drops the listener equal to the one given. */
  function RemoveListener(listeners: seq<Listener>, l: Listener): (r: seq<Listener>)
    ensures l !in r
    ensures forall x :: x in r <==> x in listeners && x != l
  {
    Without(listeners, l)
  }

  /** `destroy` passes the unbound method, not the bound copy registered by
      `setupKeyboardNavigation`, so the registered listener stays. */
  lemma DestroyKeepsKeydownListener(listeners: seq<Listener>)
    requires BoundKeydown in listeners
    ensures BoundKeydown in RemoveListener(listeners, UnboundKeydown)
  {
  }

  class AccessibilityService {
    /** `this.liveRegion` is set: the region was created. */
    var hasLiveRegion: bool
    /** The live region is still in the document, where screen readers hear it. */
    var liveRegionAttached: bool
    var livePriority: Priority
    var liveText: string
    /** Messages whose 10 ms timer has not fired yet, oldest first. */
    var pendingAnnouncements: seq<string>
    var settings: Settings
    var focusHistory: seq<Element>
    var shortcuts: map<string, Shortcut>
    var listeners: seq<Listener>
    var rootClasses: set<string>
    var focusCalls: seq<Element>

    /** The constructor: stored (or default) settings; in a browser, the live
        region (when there is a body), the shortcuts and the keydown
        listener, the settings' classes, and the detected preferences, which
        only ever switch reduced motion and high contrast on. */
    constructor (hasWindow: bool, hasBody: bool, stored: Option<Settings>,
                 prefersReducedMotion: bool, prefersHighContrast: bool)
      ensures !hasWindow ==> settings == StoredSettings(stored) && !hasLiveRegion
                             && shortcuts == map[] && listeners == [] && rootClasses == {}
      ensures hasWindow ==>
                && settings == StoredSettings(stored).(reduceMotion := StoredSettings(stored).reduceMotion || prefersReducedMotion,
                                                       highContrast := StoredSettings(stored).highContrast || prefersHighContrast)
                && hasLiveRegion == hasBody
                && shortcuts == ShortcutTable && listeners == [BoundKeydown]
                && rootClasses == ClassesFor(StoredSettings(stored)) + ClassesFor(settings)
      ensures liveRegionAttached == hasLiveRegion
      ensures livePriority == Polite && liveText == "" && pendingAnnouncements == []
      ensures focusHistory == [] && focusCalls == []
    {
      var initial := StoredSettings(stored);
      settings := initial;
      hasLiveRegion := false;
      liveRegionAttached := false;
      livePriority := Polite;
      liveText := "";
      pendingAnnouncements := [];
      focusHistory := [];
      shortcuts := map[];
      listeners := [];
      rootClasses := {};
      focusCalls := [];
      if hasWindow {
        hasLiveRegion := hasBody;
        liveRegionAttached := hasBody;
        listeners := [BoundKeydown];
        shortcuts := ShortcutTable;
        var detected := initial.(reduceMotion := initial.reduceMotion || prefersReducedMotion,
                                 highContrast := initial.highContrast || prefersHighContrast);
        settings := detected;
        rootClasses := ClassesFor(initial) + ClassesFor(detected);
      }
    }

    /** `announce(message, priority)`: ignored without a live region or for a
        message that is empty after trimming; otherwise the region's priority
        is set, its text cleared, and the message scheduled. */
    method Announce(message: string, priority: Priority)
      modifies this`livePriority, this`liveText, this`pendingAnnouncements
      ensures !hasLiveRegion || Trim(message) == [] ==>
                livePriority == old(livePriority) && liveText == old(liveText)
                && pendingAnnouncements == old(pendingAnnouncements)
      ensures hasLiveRegion && Trim(message) != [] ==>
                livePriority == priority && liveText == ""
                && pendingAnnouncements == old(pendingAnnouncements) + [message]
    {
      if !hasLiveRegion || Trim(message) == [] {
        return;
      }
      livePriority := priority;
      liveText := "";
      pendingAnnouncements := pendingAnnouncements + [message];
    }

    /** The oldest announcement timer fires: its message becomes the live
        region's text if the region is still there. */
    method FireAnnouncementTimer()
      requires pendingAnnouncements != []
      modifies this`liveText, this`pendingAnnouncements
      ensures pendingAnnouncements == old(pendingAnnouncements[1..])
      ensures liveText == (if hasLiveRegion then old(pendingAnnouncements[0]) else old(liveText))
    {
      if hasLiveRegion {
        liveText := pendingAnnouncements[0];
      }
      pendingAnnouncements := pendingAnnouncements[1..];
    }

    /** `getKeyCombo`, building the parts list push by push. */
    method GetKeyCombo(ctrl: bool, alt: bool, shift: bool, meta: bool, key: string) returns (combo: string)
      ensures combo == KeyCombo(ctrl, alt, shift, meta, key)
    {
      var parts: seq<string> := [];
      if ctrl { parts := parts + ["Ctrl"]; }
      if alt { parts := parts + ["Alt"]; }
      if shift { parts := parts + ["Shift"]; }
      if meta { parts := parts + ["Meta"]; }
      ModifiersInOrder(ctrl, alt, shift, meta);
      assert parts == Modifiers(ctrl, alt, shift, meta);
      parts := parts + [key];
      combo := Join(parts, "+");
    }

    /** `handleRovingTabindex` on the items of the widget that holds the
        event target; `currentIndex` is the target's index among them, -1
        when it is not one of them or no widget holds it. A move to a new
        index makes exactly that item tabbable and focuses it; otherwise
        nothing changes. */
    method HandleRovingTabindex(items: array<string>, currentIndex: int, key: string) returns (focusIndex: Option<nat>)
      requires -1 <= currentIndex < items.Length
      modifies items
      ensures currentIndex == -1 ==> focusIndex.None? && items[..] == old(items[..])
      ensures currentIndex >= 0 ==>
                var t := RovingTarget(currentIndex, items.Length, key);
                if t.Some? && t.value != currentIndex then
                  focusIndex == t && items[..] == TabIndexes(items.Length, t.value)
                else focusIndex.None? && items[..] == old(items[..])
    {
      focusIndex := None;
      if currentIndex == -1 {
        return;
      }
      var next := RovingTarget(currentIndex, items.Length, key);
      if next.None? || next.value == currentIndex {
        return;
      }
      var target := next.value;
      var k := 0;
      while k < items.Length
        invariant 0 <= k <= items.Length
        invariant forall i :: 0 <= i < k ==> items[i] == (if i == target then "0" else "-1")
        invariant forall i :: k <= i < items.Length ==> items[i] == old(items[i])
      {
        items[k] := if k == target then "0" else "-1";
        k := k + 1;
      }
      assert items[..] == TabIndexes(items.Length, target);
      focusIndex := next;
    }

    /** `storeFocus`: push the active element, when it is an HTML element. */
    method StoreFocus(active: Option<Element>)
      modifies this`focusHistory
      ensures focusHistory == old(focusHistory) + (if active.Some? then [active.value] else [])
    {
      if active.Some? {
        focusHistory := focusHistory + [active.value];
      }
    }

    /** `restoreFocus`: pop the most recent element and focus it if it is
        still in the document. */
    method RestoreFocus(inDocument: Element -> bool) returns (restored: Option<Element>)
      modifies this`focusHistory, this`focusCalls
      ensures old(focusHistory) == [] ==> focusHistory == [] && restored.None? && focusCalls == old(focusCalls)
      ensures old(focusHistory) != [] ==>
                var top := old(focusHistory)[|old(focusHistory)| - 1];
                && focusHistory == old(focusHistory)[..|old(focusHistory)| - 1]
                && restored == (if inDocument(top) then Some(top) else None)
      ensures focusCalls == old(focusCalls) + (if restored.Some? then [restored.value] else [])
    {
      restored := None;
      if focusHistory == [] {
        return;
      }
      var top := focusHistory[|focusHistory| - 1];
      focusHistory := focusHistory[..|focusHistory| - 1];
      if inDocument(top) {
        focusCalls := focusCalls + [top];
        restored := Some(top);
      }
    }

    /** The live region's state is as it was at `old`. */
    twostate predicate AnnouncementUnchanged()
      reads this
    {
      livePriority == old(livePriority) && liveText == old(liveText)
      && pendingAnnouncements == old(pendingAnnouncements)
    }

    /** `announce(message)` with the default priority and a message that is
        not blank: with a live region the priority is 'polite', the text
        cleared and the message queued; without one nothing changes. */
    twostate predicate AnnouncedPolitely(message: string)
      reads this
    {
      if hasLiveRegion then
        livePriority == Polite && liveText == ""
        && pendingAnnouncements == old(pendingAnnouncements) + [message]
      else AnnouncementUnchanged()
    }

    /** The effect of `skipToMainContent` / `skipToNavigation`: the landmark
        is focused and the move announced; a missing landmark changes nothing. */
    twostate predicate SkippedTo(landmark: Option<Element>, message: string)
      reads this
    {
      && focusHistory == old(focusHistory)
      && if landmark.Some? then focusCalls == old(focusCalls) + [landmark.value] && AnnouncedPolitely(message)
         else focusCalls == old(focusCalls) && AnnouncementUnchanged()
    }

    /** The effect of `cycleFocusableRegions`: the region after the active
        one, wrapping, is focused and announced by its label; without an
        active region nothing changes. */
    twostate predicate CycledRegions(dom: Dom)
      requires WellFormed(dom)
      reads this
    {
      && focusHistory == old(focusHistory)
      && if dom.activeRegion.Some? then
           var next := dom.regions[(dom.activeRegion.value + 1) % |dom.regions|];
           focusCalls == old(focusCalls) + [next.element] && AnnouncedPolitely("Moved to " + RegionLabel(next))
         else focusCalls == old(focusCalls) && AnnouncementUnchanged()
    }

    /** The effect of `handleEscape`: nothing with a dialog open; otherwise
        the most recent element is popped and focused if it is still in the
        document. Nothing is announced. */
    twostate predicate Escaped(dom: Dom)
      reads this
    {
      && AnnouncementUnchanged()
      && if dom.openModal then focusHistory == old(focusHistory) && focusCalls == old(focusCalls)
         else if old(focusHistory) == [] then focusHistory == [] && focusCalls == old(focusCalls)
         else
           var top := old(focusHistory)[|old(focusHistory)| - 1];
           && focusHistory == old(focusHistory)[..|old(focusHistory)| - 1]
           && focusCalls == old(focusCalls) + (if dom.inDocument(top) then [top] else [])
    }

    /** `skipToMainContent` / `skipToNavigation`: focus the landmark, if
        there is one, and announce the move. */
    method SkipTo(landmark: Option<Element>, message: string)
      requires message != [] && !IsJsSpace(message[0])
      modifies this`focusCalls, this`livePriority, this`liveText, this`pendingAnnouncements
      ensures SkippedTo(landmark, message)
    {
      if landmark.Some? {
        focusCalls := focusCalls + [landmark.value];
        TrimKeepsFirst(message);
        Announce(message, Polite);
      }
    }

    /** `cycleFocusableRegions`: from the region holding the active element,
        focus the next one in document order, wrapping, and announce it. */
    method CycleFocusableRegions(dom: Dom)
      requires WellFormed(dom)
      modifies this`focusCalls, this`livePriority, this`liveText, this`pendingAnnouncements
      ensures CycledRegions(dom)
    {
      if dom.activeRegion.Some? {
        var next := dom.regions[(dom.activeRegion.value + 1) % |dom.regions|];
        focusCalls := focusCalls + [next.element];
        var message := "Moved to " + RegionLabel(next);
        assert message[0] == 'M';
        TrimKeepsFirst(message);
        Announce(message, Polite);
      }
    }

    /** `handleEscape`: with a dialog open the handler clicks its close
        button (a document effect not modelled) and stops; otherwise focus
        is restored. */
    method HandleEscape(dom: Dom)
      modifies this`focusHistory, this`focusCalls
      ensures Escaped(dom)
    {
      if dom.openModal {
        return;
      }
      var _ := RestoreFocus(dom.inDocument);
    }

    /** `handleGlobalKeydown`: a combination in the shortcut table runs its
        handler and nothing else; any other key goes to roving tabindex. */
    method HandleGlobalKeydown(ctrl: bool, alt: bool, shift: bool, meta: bool, key: string,
                               dom: Dom, items: array<string>, currentIndex: int)
                               returns (ranShortcut: Option<Shortcut>, focusIndex: Option<nat>)
      requires WellFormed(dom)
      requires -1 <= currentIndex < items.Length
      modifies this, items
      ensures var combo := KeyCombo(ctrl, alt, shift, meta, key);
              ranShortcut == (if combo in old(shortcuts) then Some(old(shortcuts)[combo]) else None)
      ensures ranShortcut.Some? ==> items[..] == old(items[..]) && focusIndex.None?
      ensures ranShortcut == Some(SkipToMain) ==> SkippedTo(dom.main, SkipToMainMessage)
      ensures ranShortcut == Some(SkipToNavigation) ==> SkippedTo(dom.nav, SkipToNavigationMessage)
      ensures ranShortcut == Some(Escape) ==> Escaped(dom)
      ensures ranShortcut == Some(CycleRegions) ==> CycledRegions(dom)
      ensures ranShortcut.None? ==>
                && focusCalls == old(focusCalls) && focusHistory == old(focusHistory)
                && AnnouncementUnchanged()
                && (currentIndex >= 0 ==>
                      var t := RovingTarget(currentIndex, items.Length, key);
                      if t.Some? && t.value != currentIndex then
                        focusIndex == t && items[..] == TabIndexes(items.Length, t.value)
                      else focusIndex.None? && items[..] == old(items[..]))
      ensures settings == old(settings) && shortcuts == old(shortcuts) && listeners == old(listeners)
      ensures rootClasses == old(rootClasses) && hasLiveRegion == old(hasLiveRegion)
      ensures liveRegionAttached == old(liveRegionAttached)
    {
      var combo := GetKeyCombo(ctrl, alt, shift, meta, key);
      focusIndex := None;
      if combo in shortcuts {
        var action := shortcuts[combo];
        ranShortcut := Some(action);
        match action {
          case SkipToMain =>
            assert SkipToMainMessage[0] == 'S';
            SkipTo(dom.main, SkipToMainMessage);
          case SkipToNavigation =>
            assert SkipToNavigationMessage[0] == 'S';
            SkipTo(dom.nav, SkipToNavigationMessage);
          case Escape =>
            HandleEscape(dom);
          case CycleRegions =>
            CycleFocusableRegions(dom);
        }
        return;
      }
      ranShortcut := None;
      focusIndex := HandleRovingTabindex(items, currentIndex, key);
    }

    /** `updateSettings`: merge the supplied keys and add the classes the
        merged settings call for; classes already on the root stay. */
    method UpdateSettings(patch: SettingsPatch)
      modifies this`settings, this`rootClasses
      ensures settings == Merge(old(settings), patch)
      ensures rootClasses == old(rootClasses) + ClassesFor(settings)
    {
      settings := Merge(settings, patch);
      rootClasses := rootClasses + ClassesFor(settings);
    }

    /** `getSettings`: a copy of the current settings. */
    function GetSettings(): (s: Settings)
      reads this
      ensures s == settings
    {
      settings
    }

    /** `destroy`: take the live region out of the document, and remove the
        keydown listener passed by name, which is not the bound copy that was
        registered. The field still holds the detached region, so `announce`
        goes on passing its guard and writing into it. */
    method Destroy()
      modifies this`liveRegionAttached, this`listeners
      ensures !liveRegionAttached && hasLiveRegion == old(hasLiveRegion)
      ensures listeners == RemoveListener(old(listeners), UnboundKeydown)
    {
      liveRegionAttached := false;
      listeners := RemoveListener(listeners, UnboundKeydown);
    }

    /** The evidently intended `destroy`: remove the listener that was
        registered, so no keydown handler of the service remains. */
    method DestroyFixed()
      modifies this`liveRegionAttached, this`listeners
      ensures !liveRegionAttached && hasLiveRegion == old(hasLiveRegion)
      ensures BoundKeydown !in listeners
      ensures forall l :: l in listeners <==> l in old(listeners) && l != BoundKeydown
    {
      liveRegionAttached := false;
      listeners := RemoveListener(listeners, BoundKeydown);
    }
  }

  /** After an update, `getSettings` reports exactly the merge; an update
      supplying no keys leaves the settings as they were. */
  method UpdateThenGet(service: AccessibilityService, patch: SettingsPatch) returns (s: Settings)
    modifies service`settings, service`rootClasses
    ensures s == Merge(old(service.settings), patch)
    ensures patch == NoChanges ==> s == old(service.settings)
  {
    service.UpdateSettings(patch);
    s := service.GetSettings();
    MergeLaws(old(service.settings), patch, patch);
  }

  /** After `destroy` an announcement is still scheduled and, when its timer
      fires, written into the detached region, where no screen reader hears
      it. */
  method AnnounceAfterDestroy(service: AccessibilityService, message: string)
    requires service.hasLiveRegion && Trim(message) != []
    modifies service`liveRegionAttached, service`listeners, service`livePriority
    modifies service`liveText, service`pendingAnnouncements
    ensures !service.liveRegionAttached
    ensures service.pendingAnnouncements == (old(service.pendingAnnouncements) + [message])[1..]
    ensures old(service.pendingAnnouncements) == [] ==> service.liveText == message
  {
    service.Destroy();
    service.Announce(message, Polite);
    service.FireAnnouncementTimer();
  }

  /** Store then restore: the element stored last is focused again when it
      is still in the document, and the stack is back as it was. */
  method StoreThenRestore(service: AccessibilityService, e: Element, inDocument: Element -> bool)
    returns (restored: Option<Element>)
    modifies service`focusHistory, service`focusCalls
    ensures service.focusHistory == old(service.focusHistory)
    ensures restored == (if inDocument(e) then Some(e) else None)
  {
    service.StoreFocus(Some(e));
    restored := service.RestoreFocus(inDocument);
  }
}
