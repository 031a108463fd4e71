/**
 * The CEO report's department tabs (client/src/pages/CEOReport.jsx): selecting a tab
 * rebuilds the tab list with exactly that tab flagged current.
 */
module CeoReport {
  import opened Wrappers

  datatype Tab = Tab(name: string, current: bool)

  const InitialTabs: seq<Tab> := [
    Tab("Overview", true),
    Tab("HR", false),
    Tab("Finance", false),
    Tab("Operations", false),
    Tab("IT", false),
    Tab("Marketing", false)
  ]

  /** `toggleTab(index)`: every tab is copied, flagged current exactly when its position is `index`. */
  function ToggleTab(tabs: seq<Tab>, index: int): seq<Tab> {
    seq(|tabs|, i requires 0 <= i < |tabs| => tabs[i].(current := i == index))
  }

  /** `tabs.find(tab => tab.current)`: the first flagged tab, if any. */
  function CurrentTab(tabs: seq<Tab>): (r: Option<Tab>)
    ensures r.None? <==> forall i :: 0 <= i < |tabs| ==> !tabs[i].current
    ensures r.Some? ==> exists i :: 0 <= i < |tabs| && tabs[i] == r.value && r.value.current
                          && forall j :: 0 <= j < i ==> !tabs[j].current
  {
    if tabs == [] then None
    else if tabs[0].current then Some(tabs[0])
    else
      var rest := CurrentTab(tabs[1..]);
      assert forall j :: 1 <= j < |tabs| ==> tabs[j] == tabs[1..][j - 1];
      rest
  }

  /** Number of tabs flagged current. */
  function CountCurrent(tabs: seq<Tab>): nat {
    if tabs == [] then 0 else (if tabs[0].current then 1 else 0) + CountCurrent(tabs[1..])
  }

  function Names(tabs: seq<Tab>): seq<string> {
    seq(|tabs|, i requires 0 <= i < |tabs| => tabs[i].name)
  }

  /** When only the tab at `index` is flagged, the count of flagged tabs is one. */
  lemma {:induction false} CountSingleFlag(tabs: seq<Tab>, index: int)
    requires 0 <= index < |tabs|
    requires forall i :: 0 <= i < |tabs| ==> (tabs[i].current <==> i == index)
    ensures CountCurrent(tabs) == 1
  {
    if index == 0 {
      NoneFlagged(tabs[1..]);
    } else {
      CountSingleFlag(tabs[1..], index - 1);
    }
  }

  lemma {:induction false} NoneFlagged(tabs: seq<Tab>)
    requires forall i :: 0 <= i < |tabs| ==> !tabs[i].current
    ensures CountCurrent(tabs) == 0
  {
    if tabs != [] {
      NoneFlagged(tabs[1..]);
    }
  }

  /**
   * Selecting an in-range tab makes it the one and only current tab, keeps the names and
   * their order, and selecting it again changes nothing.
   */
  lemma ToggleTabSelects(tabs: seq<Tab>, index: int)
    requires 0 <= index < |tabs|
    ensures CountCurrent(ToggleTab(tabs, index)) == 1
    ensures CurrentTab(ToggleTab(tabs, index)) == Some(Tab(tabs[index].name, true))
    ensures Names(ToggleTab(tabs, index)) == Names(tabs)
    ensures ToggleTab(ToggleTab(tabs, index), index) == ToggleTab(tabs, index)
  {
    var r := ToggleTab(tabs, index);
    CountSingleFlag(r, index);
    assert r[index].current;
    var c := CurrentTab(r);
    var i :| 0 <= i < |r| && r[i] == c.value && c.value.current;
    assert i == index;
  }

  /** Toggling looks only at the names: two lists with the same names toggle to the same list. */
  lemma ToggleDependsOnNames(a: seq<Tab>, b: seq<Tab>, index: int)
    requires Names(a) == Names(b)
    ensures ToggleTab(a, index) == ToggleTab(b, index)
  {
    assert |a| == |Names(a)| == |Names(b)| == |b|;
    forall i | 0 <= i < |a|
      ensures a[i].name == b[i].name
    {
      assert Names(a)[i] == Names(b)[i];
    }
  }

  /** An index outside the list clears every flag, so no tab is current. */
  lemma ToggleOutOfRangeClears(tabs: seq<Tab>, index: int)
    requires index < 0 || index >= |tabs|
    ensures CountCurrent(ToggleTab(tabs, index)) == 0
    ensures CurrentTab(ToggleTab(tabs, index)).None?
  {
    NoneFlagged(ToggleTab(tabs, index));
  }

  /** The tab list after a run of clicks on tab positions. */
  function ApplyClicks(tabs: seq<Tab>, clicks: seq<int>): seq<Tab>
    decreases |clicks|
  {
    if clicks == [] then tabs else ApplyClicks(ToggleTab(tabs, clicks[0]), clicks[1..])
  }

  /** Starting from the initial list, any run of in-range clicks leaves exactly one current tab and the six names. */
  lemma {:induction false} ClicksKeepOneCurrent(tabs: seq<Tab>, clicks: seq<int>)
    requires tabs == InitialTabs || exists k :: 0 <= k < |InitialTabs| && tabs == ToggleTab(InitialTabs, k)
    requires forall c :: c in clicks ==> 0 <= c < |InitialTabs|
    ensures CountCurrent(ApplyClicks(tabs, clicks)) == 1
    ensures Names(ApplyClicks(tabs, clicks)) == Names(InitialTabs)
    decreases |clicks|
  {
    if clicks == [] {
      if tabs == InitialTabs {
        CountSingleFlag(InitialTabs, 0);
      } else {
        var k :| 0 <= k < |InitialTabs| && tabs == ToggleTab(InitialTabs, k);
        ToggleTabSelects(InitialTabs, k);
      }
    } else {
      var next := ToggleTab(tabs, clicks[0]);
      if tabs != InitialTabs {
        var k :| 0 <= k < |InitialTabs| && tabs == ToggleTab(InitialTabs, k);
        ToggleTabSelects(InitialTabs, k);
        ToggleDependsOnNames(tabs, InitialTabs, clicks[0]);
      }
      assert clicks[0] in clicks;
      assert next == ToggleTab(InitialTabs, clicks[0]);
      assert forall c :: c in clicks[1..] ==> c in clicks;
      ClicksKeepOneCurrent(next, clicks[1..]);
    }
  }

  /**
   * The department section shows when the current tab is not Overview; None stands for the
   * render failing because no tab is current.
   */
  function DepartmentSectionShown(tabs: seq<Tab>): (r: Option<bool>)
    ensures r.Some? <==> exists i :: 0 <= i < |tabs| && tabs[i].current
  {
    match CurrentTab(tabs)
    case None => None
    case Some(t) => Some(t.name != "Overview")
  }

  /** Overview starts selected, so the department section starts hidden, and any other tab shows it. */
  lemma DepartmentSectionFollowsTab(index: int)
    requires 0 <= index < |InitialTabs|
    ensures DepartmentSectionShown(InitialTabs) == Some(false)
    ensures DepartmentSectionShown(ToggleTab(InitialTabs, index)) == Some(index != 0)
  {
    ToggleTabSelects(InitialTabs, index);
  }
}
