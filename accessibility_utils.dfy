// The accessibility helpers: ARIA attribute projection, the skip link, the
// keyboard-handler builder, the focus trap and the id generator. Elements
// are opaque ids; every `focus()` call is appended to a `focusCalls` log,
// and a callback is identified by an id that the handler reports calling.

module AccessibilityUtils {
  import opened JsCore

  // ---------------------------------------------------------------- ARIA

  datatype AriaKey =
    | AriaLabel | AriaLabelledBy | AriaDescribedBy | AriaExpanded | AriaHidden
    | AriaSelected | AriaCurrent | AriaLive | AriaBusy | Role

  /** The attribute's name on the element. */
  function AttributeName(k: AriaKey): string
  {
    match k
    case AriaLabel => "aria-label"
    case AriaLabelledBy => "aria-labelledby"
    case AriaDescribedBy => "aria-describedby"
    case AriaExpanded => "aria-expanded"
    case AriaHidden => "aria-hidden"
    case AriaSelected => "aria-selected"
    case AriaCurrent => "aria-current"
    case AriaLive => "aria-live"
    case AriaBusy => "aria-busy"
    case Role => "role"
  }

  datatype LiveSetting = LiveOff | LiveAssertive | LivePolite

  /** `aria-current`: a token ('page', 'step', ...) or a boolean. */
  datatype Current = Token(token: string) | Flag(flag: bool)

  datatype AttributeValue = Text(text: string) | Boolean(b: bool) | CurrentValue(current: Current) | Live(live: LiveSetting)

  /** The config; None for an absent field. `labelText` is `label`, a reserved word here. */
  datatype AriaConfig = AriaConfig(labelText: Option<string>, labelledBy: Option<string>, describedBy: Option<string>,
                                   expanded: Option<bool>, hidden: Option<bool>, selected: Option<bool>,
                                   current: Option<Current>, live: Option<LiveSetting>, busy: Option<bool>,
                                   role: Option<string>)

  /** A string field counts when truthy, that is present and non-empty. */
  predicate Given(s: Option<string>)
  {
    s.Some? && s.value != ""
  }

  const AllAriaKeys: set<AriaKey> :=
    {AriaLabel, AriaLabelledBy, AriaDescribedBy, AriaExpanded, AriaHidden,
     AriaSelected, AriaCurrent, AriaLive, AriaBusy, Role}

  /** The one `if` of `generateAriaAttributes` that concerns attribute k. */
  function AttributeFor(c: AriaConfig, k: AriaKey): Option<AttributeValue>
  {
    match k
    case AriaLabel => if Given(c.labelText) then Some(Text(c.labelText.value)) else None
    case AriaLabelledBy => if Given(c.labelledBy) then Some(Text(c.labelledBy.value)) else None
    case AriaDescribedBy => if Given(c.describedBy) then Some(Text(c.describedBy.value)) else None
    case AriaExpanded => if c.expanded.Some? then Some(Boolean(c.expanded.value)) else None
    case AriaHidden => if c.hidden.Some? then Some(Boolean(c.hidden.value)) else None
    case AriaSelected => if c.selected.Some? then Some(Boolean(c.selected.value)) else None
    case AriaCurrent => if c.current.Some? then Some(CurrentValue(c.current.value)) else None
    case AriaLive => if c.live.Some? then Some(Live(c.live.value)) else None
    case AriaBusy => if c.busy.Some? then Some(Boolean(c.busy.value)) else None
    case Role => if Given(c.role) then Some(Text(c.role.value)) else None
  }

  /** `generateAriaAttributes`: a string field is copied when truthy, a
      boolean or `current` field whenever it is defined (false included),
      and `live` whenever present (every live setting is a non-empty word). */
  function GenerateAriaAttributes(c: AriaConfig): (r: map<AriaKey, AttributeValue>)
    ensures AriaLabel in r <==> Given(c.labelText)
    ensures AriaLabelledBy in r <==> Given(c.labelledBy)
    ensures AriaDescribedBy in r <==> Given(c.describedBy)
    ensures AriaExpanded in r <==> c.expanded.Some?
    ensures AriaHidden in r <==> c.hidden.Some?
    ensures AriaSelected in r <==> c.selected.Some?
    ensures AriaCurrent in r <==> c.current.Some?
    ensures AriaLive in r <==> c.live.Some?
    ensures AriaBusy in r <==> c.busy.Some?
    ensures Role in r <==> Given(c.role)
    ensures AriaLabel in r ==> r[AriaLabel] == Text(c.labelText.value)
    ensures AriaLabelledBy in r ==> r[AriaLabelledBy] == Text(c.labelledBy.value)
    ensures AriaDescribedBy in r ==> r[AriaDescribedBy] == Text(c.describedBy.value)
    ensures AriaExpanded in r ==> r[AriaExpanded] == Boolean(c.expanded.value)
    ensures AriaHidden in r ==> r[AriaHidden] == Boolean(c.hidden.value)
    ensures AriaSelected in r ==> r[AriaSelected] == Boolean(c.selected.value)
    ensures AriaCurrent in r ==> r[AriaCurrent] == CurrentValue(c.current.value)
    ensures AriaLive in r ==> r[AriaLive] == Live(c.live.value)
    ensures AriaBusy in r ==> r[AriaBusy] == Boolean(c.busy.value)
    ensures Role in r ==> r[Role] == Text(c.role.value)
  {
    map k | k in AllAriaKeys && AttributeFor(c, k).Some? :: AttributeFor(c, k).value
  }

  /** An empty config gives no attributes; `false` flags are still emitted,
      while an empty label is not. */
  lemma AriaExamples(c: AriaConfig)
    ensures GenerateAriaAttributes(AriaConfig(None, None, None, None, None, None, None, None, None, None)) == map[]
    ensures c.hidden == Some(false) ==> GenerateAriaAttributes(c)[AriaHidden] == Boolean(false)
    ensures c.labelText == Some("") ==> AriaLabel !in GenerateAriaAttributes(c)
  {
    var empty := GenerateAriaAttributes(AriaConfig(None, None, None, None, None, None, None, None, None, None));
    assert empty.Keys == {} by {
      forall k | k in empty ensures false {
        match k
        case AriaLabel =>
        case AriaLabelledBy =>
        case AriaDescribedBy =>
        case AriaExpanded =>
        case AriaHidden =>
        case AriaSelected =>
        case AriaCurrent =>
        case AriaLive =>
        case AriaBusy =>
        case Role =>
      }
    }
  }

  // ---------------------------------------------------------------- skip link

  const DefaultSkipText := "Skip to main content"
  const SkipLinkClass := "sr-only focus:not-sr-only focus:absolute focus:top-4 focus:left-4 bg-primary-600 text-white px-4 py-2 rounded-md z-50"

  datatype SkipLink = SkipLink(href: string, className: string, children: string)

  /** `createSkipLink(targetId, text)`: a link to `#targetId`; the text
      defaults to 'Skip to main content' only when it is not passed. */
  function CreateSkipLink(targetId: string, text: Option<string>): (r: SkipLink)
    ensures |r.href| == |targetId| + 1 && r.href[0] == '#' && r.href[1..] == targetId
    ensures r.children == (if text.Some? then text.value else DefaultSkipText)
    ensures r.className == SkipLinkClass
  {
    SkipLink("#" + targetId, SkipLinkClass, if text.Some? then text.value else DefaultSkipText)
  }

  // ---------------------------------------------------------------- keyboard handlers

  datatype NavKey = Enter | Space | Escape | ArrowUp | ArrowDown | ArrowLeft | ArrowRight | Home | End

  /** The `event.key` value each case of the switch matches. */
  function KeyName(k: NavKey): string
  {
    match k
    case Enter => "Enter"
    case Space => " "
    case Escape => "Escape"
    case ArrowUp => "ArrowUp"
    case ArrowDown => "ArrowDown"
    case ArrowLeft => "ArrowLeft"
    case ArrowRight => "ArrowRight"
    case Home => "Home"
    case End => "End"
  }

  /** The case an `event.key` falls into, if any. */
  function KeyOf(key: string): (r: Option<NavKey>)
    ensures r.Some? ==> KeyName(r.value) == key
  {
    if key == "Enter" then Some(Enter)
    else if key == " " then Some(Space)
    else if key == "Escape" then Some(Escape)
    else if key == "ArrowUp" then Some(ArrowUp)
    else if key == "ArrowDown" then Some(ArrowDown)
    else if key == "ArrowLeft" then Some(ArrowLeft)
    else if key == "ArrowRight" then Some(ArrowRight)
    else if key == "Home" then Some(Home)
    else if key == "End" then Some(End)
    else None
  }

  /** Every listed key is recognised as its own case. */
  lemma KeyOfKeyName(k: NavKey)
    ensures KeyOf(KeyName(k)) == Some(k)
  {
    match k
    case Enter =>
    case Space =>
    case Escape =>
    case ArrowUp =>
    case ArrowDown =>
    case ArrowLeft => assert "ArrowLeft"[5] != "ArrowDown"[5];
    case ArrowRight =>
    case Home =>
    case End =>
  }

  /** What the handler does with one key: whether it prevents the default
      action, and which configured callback it calls. */
  datatype KeyResponse = KeyResponse(prevented: bool, called: Option<nat>)

  /** The handler `createKeyboardNavigation(config)` returns; `config` maps
      each configured key to its callback id. */
  function KeyboardNavigation(config: map<NavKey, nat>, key: string): (r: KeyResponse)
    ensures r.prevented <==> KeyOf(key).Some?
    ensures r.called.Some? <==> KeyOf(key).Some? && KeyOf(key).value in config
    ensures r.called.Some? ==> r.called.value == config[KeyOf(key).value]
  {
    match KeyOf(key)
    case None => KeyResponse(false, None)
    case Some(k) => KeyResponse(true, if k in config then Some(config[k]) else None)
  }

  /** Each of the nine keys calls exactly its own handler, and a key outside
      them does nothing at all. */
  lemma KeyboardNavigationDispatch(config: map<NavKey, nat>, k: NavKey, key: string)
    requires forall j: NavKey :: key != KeyName(j)
    ensures KeyboardNavigation(config, KeyName(k)) ==
              KeyResponse(true, if k in config then Some(config[k]) else None)
    ensures KeyboardNavigation(config, key) == KeyResponse(false, None)
  {
    KeyOfKeyName(k);
  }

  // ---------------------------------------------------------------- focus trap

  type Element = nat

  /** The trap's response to a keydown while active. The first and last
      focusable elements are `undefined` when there are none, and the
      active element (`null` when nothing is focused) never equals that. */
  function TrapKeyDown(elements: seq<Element>, key: string, shiftKey: bool, active: Option<Element>): (r: Option<Element>)
    ensures r.Some? ==> key == "Tab" && elements != [] && active.Some?
    ensures r.Some? ==> r.value == (if shiftKey then elements[|elements| - 1] else elements[0])
    ensures key == "Tab" && elements != [] && active.Some? ==>
              (r.Some? <==> active.value == (if shiftKey then elements[0] else elements[|elements| - 1]))
  {
    if key != "Tab" || elements == [] || active.None? then None
    else if shiftKey then (if active.value == elements[0] then Some(elements[|elements| - 1]) else None)
    else (if active.value == elements[|elements| - 1] then Some(elements[0]) else None)
  }

  /** Tab from the last element goes to the first, Shift+Tab from the first
      to the last, so the two undo each other; from any element not at an
      end, Tab leaves focus to the browser. */
  lemma TrapWraps(elements: seq<Element>, i: int)
    requires elements != [] && 0 <= i < |elements|
    ensures TrapKeyDown(elements, "Tab", false, Some(elements[|elements| - 1])) == Some(elements[0])
    ensures TrapKeyDown(elements, "Tab", true, Some(elements[0])) == Some(elements[|elements| - 1])
    ensures var there := TrapKeyDown(elements, "Tab", false, Some(elements[|elements| - 1])).value;
            TrapKeyDown(elements, "Tab", true, Some(there)) == Some(elements[|elements| - 1])
    ensures elements[i] != elements[|elements| - 1] ==> TrapKeyDown(elements, "Tab", false, Some(elements[i])).None?
  {
  }

  class FocusTrap {
    var previousFocus: Option<Element>
    var focusableElements: seq<Element>
    /** Whether the trap's keydown listener is on the document. The listener
        is an arrow-function field, so activation and deactivation pass the
        same function. */
    var listening: bool
    var focusCalls: seq<Element>

    constructor ()
      ensures previousFocus.None? && focusableElements == [] && !listening && focusCalls == []
    {
      previousFocus := None;
      focusableElements := [];
      listening := false;
      focusCalls := [];
    }

    /** `activate`: remember the active element, collect the container's
        focusable elements, focus the first and start listening. */
    method Activate(active: Option<Element>, focusable: seq<Element>)
      modifies this
      ensures previousFocus == active && focusableElements == focusable && listening
      ensures focusCalls == old(focusCalls) + (if focusable != [] then [focusable[0]] else [])
    {
      previousFocus := active;
      focusableElements := focusable;
      if focusable != [] {
        focusCalls := focusCalls + [focusable[0]];
      }
      listening := true;
    }

    /** `deactivate`: stop listening and return focus to the remembered element. */
    method Deactivate()
      modifies this`listening, this`focusCalls
      ensures !listening
      ensures focusCalls == old(focusCalls) + (if previousFocus.Some? then [previousFocus.value] else [])
    {
      listening := false;
      if previousFocus.Some? {
        focusCalls := focusCalls + [previousFocus.value];
      }
    }

    /** The keydown listener: wrap focus at either end on Tab. Returns whether
        the default action was prevented. */
    method HandleKeyDown(key: string, shiftKey: bool, active: Option<Element>) returns (prevented: bool)
      modifies this`focusCalls
      ensures var t := TrapKeyDown(focusableElements, key, shiftKey, active);
              prevented == t.Some? && focusCalls == old(focusCalls) + (if t.Some? then [t.value] else [])
    {
      var t := TrapKeyDown(focusableElements, key, shiftKey, active);
      prevented := t.Some?;
      if t.Some? {
        focusCalls := focusCalls + [t.value];
      }
    }
  }

  /** Activating, then deactivating at once, ends with focus back where it
      was and the listener gone. */
  method ActivateThenDeactivate(trap: FocusTrap, active: Element, focusable: seq<Element>)
    modifies trap
    ensures !trap.listening
    ensures trap.focusCalls == old(trap.focusCalls) + (if focusable != [] then [focusable[0]] else []) + [active]
  {
    trap.Activate(Some(active), focusable);
    trap.Deactivate();
  }

  // ---------------------------------------------------------------- ids

  /** `${prefix}-${n}`. */
  function IdFor(prefix: string, n: nat): string
  {
    prefix + "-" + NatToString(n)
  }

  /** The characters after the last '-' (all of s when it has none). */
  function AfterLastDash(s: string): (r: string)
    decreases |s|
  {
    if s == [] || s[|s| - 1] == '-' then [] else AfterLastDash(s[..|s| - 1]) + [s[|s| - 1]]
  }

  lemma {:induction false} AfterLastDashOfId(p: string, d: string)
    requires forall i :: 0 <= i < |d| ==> d[i] != '-'
    ensures AfterLastDash(p + "-" + d) == d
    decreases |d|
  {
    var s := p + "-" + d;
    if d != [] {
      assert s[..|s| - 1] == p + "-" + d[..|d| - 1];
      AfterLastDashOfId(p, d[..|d| - 1]);
      assert d == d[..|d| - 1] + [d[|d| - 1]];
    }
  }

  /** Ids made from different counter values differ whatever their prefixes:
      the part after the last '-' is the counter's digits. */
  lemma IdsNeverRepeat(p: string, n: nat, q: string, m: nat)
    requires n != m
    ensures IdFor(p, n) != IdFor(q, m)
  {
    NatToStringDigits(n);
    NatToStringDigits(m);
    AfterLastDashOfId(p, NatToString(n));
    AfterLastDashOfId(q, NatToString(m));
    NatToStringInjective(n, m);
  }

  /** The module-level counter behind `generateId`. */
  class IdGenerator {
    var idCounter: nat

    constructor ()
      ensures idCounter == 0
    {
      idCounter := 0;
    }

    /** `generateId(prefix)`: advance the counter, then use it; the prefix
        defaults to 'component' when not passed. */
    method GenerateId(prefix: Option<string>) returns (id: string)
      modifies this
      ensures idCounter == old(idCounter) + 1
      ensures id == IdFor(if prefix.Some? then prefix.value else "component", idCounter)
    {
      idCounter := idCounter + 1;
      id := IdFor(if prefix.Some? then prefix.value else "component", idCounter);
    }
  }

  /** Two calls in a row give different ids, whatever the prefixes. */
  method TwoIds(g: IdGenerator, p: Option<string>, q: Option<string>) returns (first: string, second: string)
    modifies g
    ensures first != second
    ensures g.idCounter == old(g.idCounter) + 2
  {
    first := g.GenerateId(p);
    second := g.GenerateId(q);
    IdsNeverRepeat(if p.Some? then p.value else "component", g.idCounter - 1,
                   if q.Some? then q.value else "component", g.idCounter);
  }
}
