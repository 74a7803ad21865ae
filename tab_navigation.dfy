// The tab strip: keyboard and click handling, and the attributes each tab
// button is rendered with. The change callback is modelled by its argument:
// a handler returns the tab id it would pass to `onTabChange`, or None.

module TabNavigation {
  import opened JsCore

  /** A tab; `labelText` is the source's `label` (a reserved word here). */
  datatype Tab = Tab(id: string, labelText: string, ariaLabel: Option<string>, disabled: bool)

  /** `tabs.findIndex(tab => tab.id === activeTab)`: -1 when absent. */
  function FindIndex(tabs: seq<Tab>, activeTab: string): (r: int)
    ensures -1 <= r < |tabs|
    ensures r >= 0 ==> tabs[r].id == activeTab && forall i :: 0 <= i < r ==> tabs[i].id != activeTab
    ensures r == -1 ==> forall i :: 0 <= i < |tabs| ==> tabs[i].id != activeTab
    decreases |tabs|
  {
    if tabs == [] then -1
    else if tabs[0].id == activeTab then 0
    else
      var rest := FindIndex(tabs[1..], activeTab);
      if rest == -1 then -1 else rest + 1
  }

  /** JavaScript's `%`, which truncates toward zero: the remainder takes the
      sign of the dividend. (`-0` indexes like `0`.) */
  function JsRem(a: int, n: int): (r: int)
    requires n > 0
    ensures a >= 0 ==> r == a % n
    ensures -n < r < n
  {
    if a >= 0 then a % n else -((-a) % n)
  }

  /** The arrow-key target index `(currentIndex + direction + tabs.length) % tabs.length`. */
  function NextIndex(current: int, direction: int, n: int): (r: int)
    requires n > 0
    requires -1 <= current < n && (direction == -1 || direction == 1)
    ensures 0 <= r < n
    ensures current >= 0 ==> r == (current + direction + n) % n
  {
    JsRem(current + direction + n, n)
  }

  /** `handleKeyDown(e, tabId)` on the button of tab `tabId`; the handler is
      only attached to rendered tabs, so there is at least one. Enter and
      Space select that tab; an arrow key moves from the active tab one step,
      wrapping, and selects the target unless it is disabled. Disabled tabs
      are not skipped. */
  function HandleKeyDown(tabs: seq<Tab>, activeTab: string, key: string, tabId: string): (r: Option<string>)
    requires |tabs| > 0
    ensures key == "Enter" || key == " " ==> r == Some(tabId)
    ensures key != "Enter" && key != " " && key != "ArrowLeft" && key != "ArrowRight" ==> r.None?
    ensures key == "ArrowLeft" || key == "ArrowRight" ==>
              var target := tabs[NextIndex(FindIndex(tabs, activeTab), if key == "ArrowLeft" then -1 else 1, |tabs|)];
              r == (if target.disabled then None else Some(target.id))
  {
    if key == "Enter" || key == " " then Some(tabId)
    else if key == "ArrowLeft" || key == "ArrowRight" then
      var currentIndex := FindIndex(tabs, activeTab);
      var direction := if key == "ArrowLeft" then -1 else 1;
      var nextTab := tabs[NextIndex(currentIndex, direction, |tabs|)];
      if !nextTab.disabled then Some(nextTab.id) else None
    else None
  }

  /** The button's click handler: a disabled tab emits nothing. */
  function Click(tab: Tab): (r: Option<string>)
    ensures r.Some? <==> !tab.disabled
    ensures r.Some? ==> r.value == tab.id
  {
    if tab.disabled then None else Some(tab.id)
  }

  datatype ButtonAttributes = ButtonAttributes(tabIndex: int, ariaSelected: bool, ariaLabel: string, disabled: bool)

  /** The attributes of one rendered tab button. */
  function Attributes(tab: Tab, activeTab: string): (a: ButtonAttributes)
    ensures a.tabIndex == 0 <==> tab.id == activeTab
    ensures a.tabIndex == 0 || a.tabIndex == -1
    ensures a.ariaSelected <==> tab.id == activeTab
    ensures a.ariaLabel == (if tab.ariaLabel.Some? && tab.ariaLabel.value != "" then tab.ariaLabel.value else tab.labelText)
  {
    ButtonAttributes(if activeTab == tab.id then 0 else -1, activeTab == tab.id,
                     if tab.ariaLabel.Some? && tab.ariaLabel.value != "" then tab.ariaLabel.value else tab.labelText,
                     tab.disabled)
  }

  /** `tabs.map(...)`: one button per tab, in order. */
  function Render(tabs: seq<Tab>, activeTab: string): (r: seq<ButtonAttributes>)
    ensures |r| == |tabs|
    ensures forall i :: 0 <= i < |tabs| ==> r[i] == Attributes(tabs[i], activeTab)
  {
    seq(|tabs|, i requires 0 <= i < |tabs| => Attributes(tabs[i], activeTab))
  }

  predicate DistinctIds(tabs: seq<Tab>)
  {
    forall i, j :: 0 <= i < j < |tabs| ==> tabs[i].id != tabs[j].id
  }

  /** With distinct ids, exactly the active tab is focusable and selected. */
  lemma ExactlyActiveSelected(tabs: seq<Tab>, activeTab: string)
    requires DistinctIds(tabs)
    ensures var r := Render(tabs, activeTab);
            forall i :: 0 <= i < |tabs| ==>
              (r[i].tabIndex == 0 <==> i == FindIndex(tabs, activeTab)) &&
              (r[i].ariaSelected <==> i == FindIndex(tabs, activeTab))
  {
    var k := FindIndex(tabs, activeTab);
    forall i | 0 <= i < |tabs|
      ensures tabs[i].id == activeTab <==> i == k
    {
      if tabs[i].id == activeTab {
        assert k >= 0;
      }
    }
  }

  /** FindIndex of a tab's own id, when ids are distinct, is its position. */
  lemma FindIndexOfOwnId(tabs: seq<Tab>, i: int)
    requires DistinctIds(tabs) && 0 <= i < |tabs|
    ensures FindIndex(tabs, tabs[i].id) == i
  {
    var k := FindIndex(tabs, tabs[i].id);
    assert k >= 0;
  }

  /** Stepping right then left returns to the starting tab, wrap-around
      included, when neither target is disabled. */
  lemma RightThenLeft(tabs: seq<Tab>, i: int, tabId: string)
    requires DistinctIds(tabs) && 0 <= i < |tabs|
    requires forall k :: 0 <= k < |tabs| ==> !tabs[k].disabled
    ensures var right := HandleKeyDown(tabs, tabs[i].id, "ArrowRight", tabId);
            right.Some? && HandleKeyDown(tabs, right.value, "ArrowLeft", tabId) == Some(tabs[i].id)
  {
    var n := |tabs|;
    FindIndexOfOwnId(tabs, i);
    var j := if i == n - 1 then 0 else i + 1;
    ModOfSmall(i + 1 + n, n);
    assert NextIndex(i, 1, n) == j;
    assert HandleKeyDown(tabs, tabs[i].id, "ArrowRight", tabId) == Some(tabs[j].id);
    FindIndexOfOwnId(tabs, j);
    ModOfSmall(j - 1 + n, n);
    assert NextIndex(j, -1, n) == i;
  }

  /** An arrow key with no active tab in the list starts from index -1:
      ArrowRight reaches the first tab and ArrowLeft the second-to-last
      (the first when there is one tab). */
  lemma ArrowFromMissingActive(tabs: seq<Tab>, activeTab: string)
    requires |tabs| > 0 && FindIndex(tabs, activeTab) == -1
    ensures NextIndex(-1, 1, |tabs|) == 0
    ensures NextIndex(-1, -1, |tabs|) == (if |tabs| == 1 then 0 else |tabs| - 2)
  {
  }
}
