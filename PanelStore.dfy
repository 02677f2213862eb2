/**
 * The panel collection of the dashboard page (src/App.tsx): the ordered
 * collection, written through to the browser's storage slot on every change,
 * and the handlers that create, edit, delete, import and reset panels.
 * Every new collection is a pure function of the old one (`map`, `filter`,
 * spread); the page itself is a `Dashboard` object whose fields are the
 * page's state slots.
 */
module PanelStore {
  import opened Wrappers
  import opened Types
  import opened Seqs
  import opened EditModal

  /** The eight panels the page starts with when storage holds nothing, and that Reset restores. */
  const DefaultPanels: seq<Panel> := [
    Panel("1", Metric, MetricData(MetricCard("1", "Добыча угля", "435", "млн тонн", "+2.3%", Positive, "Pickaxe"))),
    Panel("2", Metric, MetricData(MetricCard("2", "Экспорт угля", "210", "млн тонн", "+8.5%", Positive, "Ship"))),
    Panel("3", Metric, MetricData(MetricCard("3", "Запасы угля", "275", "млрд тонн", "0%", Neutral, "Warehouse"))),
    Panel("4", Metric, MetricData(MetricCard("4", "Численность работников", "125", "тыс. чел.", "-1.2%", Negative, "Users"))),
    Panel("5", Metric, MetricData(MetricCard("5", "Средняя зарплата", "85 400", "руб.", "+5.7%", Positive, "Wallet"))),
    Panel("6", Metric, MetricData(MetricCard("6", "Уровень травматизма", "0.42", "на 1 млн чел.-часов", "-12%", Positive, "ShieldCheck"))),
    Panel("7", Chart, ChartData(ChartPanel("7", "Динамика добычи угля (2019-2023)", Line, [
      ChartDataPoint("2019", 441.0), ChartDataPoint("2020", 401.0), ChartDataPoint("2021", 438.0),
      ChartDataPoint("2022", 427.0), ChartDataPoint("2023", 435.0)]))),
    Panel("8", Chart, ChartData(ChartPanel("8", "Структура экспорта угля по странам", Bar, [
      ChartDataPoint("Китай", 85.0), ChartDataPoint("Турция", 32.0), ChartDataPoint("Ю. Корея", 28.0),
      ChartDataPoint("Япония", 24.0), ChartDataPoint("ЕС", 18.0)])))
  ]

  /** What `JSON.parse` made of an imported file. */
  datatype Parsed = Malformed | NotAnArray | PanelArray(panels: seq<Panel>)

  predicate HasId(ps: seq<Panel>, k: string) {
    exists i :: 0 <= i < |ps| && ps[i].id == k
  }

  /** No two panels share an id. */
  predicate UniqueIds(ps: seq<Panel>) {
    forall i, j :: 0 <= i < j < |ps| ==> ps[i].id != ps[j].id
  }

  /** Every payload repeats its panel's id. */
  predicate AllInSync(ps: seq<Panel>) {
    forall i :: 0 <= i < |ps| ==> IdInSync(ps[i])
  }

  /** Every panel's tag agrees with the shape of its payload. */
  predicate AllWellTagged(ps: seq<Panel>) {
    forall i :: 0 <= i < |ps| ==> WellTagged(ps[i])
  }

  /** The delete filter's test `p.id !== k`. */
  function NotId(k: string): Panel -> bool {
    (p: Panel) => p.id != k
  }

  /** The partition's test `p.type === t`. */
  function HasTag(t: PanelType): Panel -> bool {
    (p: Panel) => p.tag == t
  }

  /** The collection the storage hook yields for a slot: its contents, or the defaults when it is empty. */
  function Load(slot: Option<seq<Panel>>): (r: seq<Panel>)
    ensures slot.Some? ==> r == slot.value
    ensures slot.None? ==> r == DefaultPanels && |r| == 8
  {
    slot.GetOr(DefaultPanels)
  }

  /** `panels.find(p => p.id === k)`: the first panel with id `k`, if any. */
  function FindById(ps: seq<Panel>, k: string): (r: Option<Panel>)
    ensures r.None? <==> !HasId(ps, k)
    ensures r.Some? ==> exists i :: 0 <= i < |ps| && ps[i] == r.value && r.value.id == k &&
                                    forall j :: 0 <= j < i ==> ps[j].id != k
  {
    if ps == [] then None
    else if ps[0].id == k then Some(ps[0])
    else
      var r := FindById(ps[1..], k);
      assert HasId(ps, k) ==> HasId(ps[1..], k) by {
        if HasId(ps, k) {
          var i :| 0 <= i < |ps| && ps[i].id == k;
          assert ps[1..][i - 1].id == k;
        }
      }
      assert r.Some? ==> exists i :: 0 <= i < |ps| && ps[i] == r.value && r.value.id == k &&
                                     forall j :: 0 <= j < i ==> ps[j].id != k by {
        if r.Some? {
          var i :| 0 <= i < |ps[1..]| && ps[1..][i] == r.value && r.value.id == k &&
                   forall j :: 0 <= j < i ==> ps[1..][j].id != k;
          assert ps[i + 1] == r.value;
          assert forall j :: 0 <= j < i + 1 ==> ps[j].id != k by {
            forall j | 0 <= j < i + 1 ensures ps[j].id != k {
              if j > 0 { assert ps[j] == ps[1..][j - 1]; }
            }
          }
        }
      }
      r
  }

  /** `ps.map(p => p.id === k ? { ...p, type: t, data: d } : p)`. */
  function ReplaceId(ps: seq<Panel>, k: string, t: PanelType, d: PanelData): (r: seq<Panel>)
    ensures |r| == |ps|
    ensures forall i :: 0 <= i < |ps| && ps[i].id == k ==> r[i] == Panel(k, t, d)
    ensures forall i :: 0 <= i < |ps| && ps[i].id != k ==> r[i] == ps[i]
  {
    if ps == [] then []
    else [if ps[0].id == k then ps[0].(tag := t, data := d) else ps[0]] + ReplaceId(ps[1..], k, t, d)
  }

  /** The panel a creation appends: the id and the payload's id come from two separate clock reads. */
  function CreatedPanel(clock1: string, clock2: string, t: PanelType, d: PanelData): (p: Panel)
    ensures p.id == clock1 && p.tag == t
    ensures DataId(p.data) == clock2 && TagOf(p.data) == TagOf(d)
    ensures WithId(p.data, DataId(d)) == d
  {
    Panel(clock1, t, WithId(d, clock2))
  }

  /** `panels.filter(p => p.type === 'metric')`. */
  function MetricPanels(ps: seq<Panel>): (r: seq<Panel>)
    ensures |r| <= |ps|
    ensures forall i :: 0 <= i < |r| ==> r[i].tag == Metric && r[i] in ps
  {
    FilterMembershipAll(ps, HasTag(Metric));
    Filter(ps, HasTag(Metric))
  }

  /** `panels.filter(p => p.type === 'chart')`. */
  function ChartPanels(ps: seq<Panel>): (r: seq<Panel>)
    ensures |r| <= |ps|
    ensures forall i :: 0 <= i < |r| ==> r[i].tag == Chart && r[i] in ps
  {
    FilterMembershipAll(ps, HasTag(Chart));
    Filter(ps, HasTag(Chart))
  }

  /**
   * The default collection: eight panels with ids "1" to "8" in order, each
   * payload carrying its panel's id, six metric cards followed by two charts,
   * every tag matching its payload.
   */
  lemma DefaultPanelsShape()
    ensures |DefaultPanels| == 8
    ensures forall i :: 0 <= i < 8 ==> DefaultPanels[i].id == ["12345678"[i]]
    ensures AllInSync(DefaultPanels) && UniqueIds(DefaultPanels)
    ensures forall i :: 0 <= i < 8 ==> WellTagged(DefaultPanels[i])
    ensures forall i :: 0 <= i < 8 ==> DefaultPanels[i].tag == if i < 6 then Metric else Chart
  {
    var d := DefaultPanels;
    var digits := "12345678";
    forall i | 0 <= i < 8
      ensures d[i].id == [digits[i]] && IdInSync(d[i]) && WellTagged(d[i])
      ensures d[i].tag == if i < 6 then Metric else Chart
    {
      if i == 0 { assert d[0].id == "1"; }
      else if i == 1 { assert d[1].id == "2"; }
      else if i == 2 { assert d[2].id == "3"; }
      else if i == 3 { assert d[3].id == "4"; }
      else if i == 4 { assert d[4].id == "5"; }
      else if i == 5 { assert d[5].id == "6"; }
      else if i == 6 { assert d[6].id == "7"; }
      else { assert d[7].id == "8"; }
    }
    forall i, j | 0 <= i < j < 8 ensures d[i].id != d[j].id {
      assert digits[i] != digits[j];
    }
  }

  /** Editing an id no panel has leaves the collection as it was. */
  lemma {:induction false} ReplaceAbsent(ps: seq<Panel>, k: string, t: PanelType, d: PanelData)
    requires !HasId(ps, k)
    ensures ReplaceId(ps, k, t, d) == ps
  {
    if ps != [] {
      assert ps[0].id != k;
      assert !HasId(ps[1..], k) by {
        forall i | 0 <= i < |ps[1..]| ensures ps[1..][i].id != k {
          assert ps[1..][i] == ps[i + 1];
        }
      }
      ReplaceAbsent(ps[1..], k, t, d);
    }
  }

  /** Editing keeps every id where it was, so it keeps ids unique. */
  lemma ReplaceKeepsIds(ps: seq<Panel>, k: string, t: PanelType, d: PanelData)
    ensures forall i :: 0 <= i < |ps| ==> ReplaceId(ps, k, t, d)[i].id == ps[i].id
    ensures UniqueIds(ps) ==> UniqueIds(ReplaceId(ps, k, t, d))
  {
  }

  /**
   * Opening the editor on a panel and saving its payload unchanged gives the
   * collection back, provided ids are unique; with duplicate ids every panel
   * sharing the id would be overwritten by the first one's payload.
   */
  lemma EditUnchangedIsIdentity(ps: seq<Panel>, k: string)
    requires UniqueIds(ps) && FindById(ps, k).Some?
    ensures ReplaceId(ps, k, FindById(ps, k).value.tag, FindById(ps, k).value.data) == ps
  {
    var p := FindById(ps, k).value;
    var i :| 0 <= i < |ps| && ps[i] == p && p.id == k;
    var r := ReplaceId(ps, k, p.tag, p.data);
    forall j | 0 <= j < |ps| ensures r[j] == ps[j] {
      if j != i {
        assert ps[j].id != k by {
          if j < i { assert ps[j].id != ps[i].id; } else { assert ps[i].id != ps[j].id; }
        }
      }
    }
  }

  /** An edit that stamps the edited id into the payload keeps every payload in sync with its panel. */
  lemma ReplaceKeepsSync(ps: seq<Panel>, k: string, t: PanelType, d: PanelData)
    requires AllInSync(ps) && DataId(d) == k
    ensures AllInSync(ReplaceId(ps, k, t, d))
  {
  }

  /** Saving a payload under the tag that matches its shape keeps every panel well tagged. */
  lemma SaveKeepsWellTagged(ps: seq<Panel>, k: string, t: PanelType, d: PanelData, clock1: string, clock2: string)
    requires AllWellTagged(ps) && TagOf(d) == t
    ensures AllWellTagged(ReplaceId(ps, k, t, d))
    ensures AllWellTagged(ps + [CreatedPanel(clock1, clock2, t, d)])
  {
    var r := ps + [CreatedPanel(clock1, clock2, t, d)];
    forall i | 0 <= i < |r| ensures WellTagged(r[i]) {
      if i < |ps| { assert r[i] == ps[i]; }
    }
  }

  /** Filtering keeps ids unique: every survivor is a panel of the original collection. */
  lemma {:induction false} FilterKeepsUnique(ps: seq<Panel>, f: Panel -> bool)
    requires UniqueIds(ps)
    ensures UniqueIds(Filter(ps, f))
  {
    if ps != [] {
      var rest := ps[1..];
      assert UniqueIds(rest) by {
        forall i, j | 0 <= i < j < |rest| ensures rest[i].id != rest[j].id {
          assert rest[i] == ps[i + 1] && rest[j] == ps[j + 1];
        }
      }
      FilterKeepsUnique(rest, f);
      if f(ps[0]) {
        var r := Filter(ps, f);
        var tail := Filter(rest, f);
        assert r == [ps[0]] + tail;
        forall i, j | 0 <= i < j < |r| ensures r[i].id != r[j].id {
          if i == 0 {
            var q := tail[j - 1];
            assert q in tail;
            FilterMembership(rest, f, q);
            var m :| 0 <= m < |rest| && rest[m] == q;
            assert ps[m + 1] == q;
          } else {
            assert r[i] == tail[i - 1] && r[j] == tail[j - 1];
          }
        }
      }
    }
  }

  /**
   * Deleting id `k` (`filter(p => p.id !== k)`): no panel with id `k` is left,
   * every other panel is kept as often as it occurred, the survivors keep their
   * relative order, ids stay unique, and an absent id changes nothing.
   */
  lemma RemoveIdSpec(ps: seq<Panel>, k: string)
    ensures !HasId(Filter(ps, NotId(k)), k)
    ensures forall p :: multiset(Filter(ps, NotId(k)))[p] == if p.id != k then multiset(ps)[p] else 0
    ensures IsSubsequence(Filter(ps, NotId(k)), ps)
    ensures UniqueIds(ps) ==> UniqueIds(Filter(ps, NotId(k)))
    ensures !HasId(ps, k) ==> Filter(ps, NotId(k)) == ps
  {
    var r := Filter(ps, NotId(k));
    assert forall i :: 0 <= i < |r| ==> NotId(k)(r[i]);
    forall p ensures multiset(r)[p] == if p.id != k then multiset(ps)[p] else 0 {
      FilterCount(ps, NotId(k), p);
    }
    FilterIsSubsequence(ps, NotId(k));
    if UniqueIds(ps) {
      FilterKeepsUnique(ps, NotId(k));
    }
    if !HasId(ps, k) {
      FilterKeepsAll(ps, NotId(k));
    }
  }

  /** Appending a panel whose id is fresh keeps ids unique (freshness is an assumption the source does not check). */
  lemma AppendFreshKeepsUnique(ps: seq<Panel>, p: Panel)
    requires UniqueIds(ps) && !HasId(ps, p.id)
    ensures UniqueIds(ps + [p])
  {
    assert forall i :: 0 <= i < |ps| ==> (ps + [p])[i] == ps[i];
  }

  /** A created panel's payload repeats its id exactly when the two clock reads agree; its tag is the one given. */
  lemma CreatedPanelSync(clock1: string, clock2: string, t: PanelType, d: PanelData)
    ensures IdInSync(CreatedPanel(clock1, clock2, t, d)) <==> clock1 == clock2
    ensures CreatedPanel(clock1, clock2, t, d).id == clock1 && CreatedPanel(clock1, clock2, t, d).tag == t
    ensures WellTagged(CreatedPanel(clock1, clock2, t, d)) <==> TagOf(d) == t
  {
  }

  /**
   * The cards call edit and delete with the payload's id (`data.id`). For a
   * panel whose payload id differs from its own id, edit never opens that
   * panel (it opens another panel or none) and delete never removes it.
   */
  lemma UnsyncedPanelMissed(ps: seq<Panel>, p: Panel)
    requires p in ps && !IdInSync(p)
    ensures FindById(ps, DataId(p.data)) != Some(p)
    ensures FindById(ps, DataId(p.data)).Some? ==> FindById(ps, DataId(p.data)).value.id != p.id
    ensures p in Filter(ps, NotId(DataId(p.data)))
  {
    RemoveIdSpec(ps, DataId(p.data));
    assert multiset(ps)[p] > 0;
  }

  /**
   * When, moreover, no panel has that payload id, edit finds nothing and
   * delete removes nothing at all.
   */
  lemma UnsyncedPanelUnreachable(ps: seq<Panel>, p: Panel)
    requires p in ps && !HasId(ps, DataId(p.data))
    ensures FindById(ps, DataId(p.data)) == None
    ensures Filter(ps, NotId(DataId(p.data))) == ps
  {
    RemoveIdSpec(ps, DataId(p.data));
  }

  /**
   * The two views each keep the collection's order and hold only panels of
   * their tag, and together they hold every panel exactly as often as the
   * collection does.
   */
  lemma Partition(ps: seq<Panel>)
    ensures multiset(MetricPanels(ps)) + multiset(ChartPanels(ps)) == multiset(ps)
    ensures IsSubsequence(MetricPanels(ps), ps) && IsSubsequence(ChartPanels(ps), ps)
    ensures forall i :: 0 <= i < |MetricPanels(ps)| ==> MetricPanels(ps)[i].tag == Metric
    ensures forall i :: 0 <= i < |ChartPanels(ps)| ==> ChartPanels(ps)[i].tag == Chart
  {
    assert forall p :: HasTag(Metric)(p) != HasTag(Chart)(p);
    FilterPartition(ps, HasTag(Metric), HasTag(Chart));
    FilterIsSubsequence(ps, HasTag(Metric));
    FilterIsSubsequence(ps, HasTag(Chart));
  }

  /** The dashboard page's state: the collection, its storage slot, and the dialogs' state. */
  class Dashboard {
    var panels: seq<Panel>
    /** The 'coal-dashboard-panels' storage slot; None while nothing has been written. */
    var slot: Option<seq<Panel>>
    var isModalOpen: bool
    var isDeleteDialogOpen: bool
    var editingPanel: Option<Panel>
    var deletingPanelId: Option<string>

    /** Reloading the page would show the same collection. */
    predicate StorageAgrees()
      reads this
    {
      Load(slot) == panels
    }

    /** A delete is pending when `deletingPanelId` is truthy: neither null nor the empty string. */
    predicate DeletePending()
      reads this
    {
      deletingPanelId.Some? && deletingPanelId.value != ""
    }

    /** The page's first render, with the storage slot as found. */
    constructor(stored: Option<seq<Panel>>)
      ensures slot == stored && panels == Load(stored) && StorageAgrees()
      ensures !isModalOpen && !isDeleteDialogOpen && editingPanel == None && deletingPanelId == None
    {
      panels := Load(stored);
      slot := stored;
      isModalOpen := false;
      isDeleteDialogOpen := false;
      editingPanel := None;
      deletingPanelId := None;
    }

    /** The storage hook's setter: the new collection is written through to the slot. */
    method SetPanels(ps: seq<Panel>)
      modifies this`panels, this`slot
      ensures panels == ps && slot == Some(ps) && StorageAgrees()
    {
      panels := ps;
      slot := Some(ps);
    }

    /** handleAddPanel: open the editor for a new panel. */
    method AddPanel()
      modifies this`editingPanel, this`isModalOpen
      ensures editingPanel == None && isModalOpen
    {
      editingPanel := None;
      isModalOpen := true;
    }

    /** handleEditPanel: open the editor on the first panel with id `k`; nothing happens when there is none. */
    method EditPanel(k: string)
      modifies this`editingPanel, this`isModalOpen
      ensures HasId(panels, k) ==> editingPanel == FindById(panels, k) && editingPanel.value.id == k && isModalOpen
      ensures !HasId(panels, k) ==> editingPanel == old(editingPanel) && isModalOpen == old(isModalOpen)
    {
      var found := FindById(panels, k);
      if found.Some? {
        editingPanel := found;
        isModalOpen := true;
      }
    }

    /** handleDeletePanel: remember `k` and ask for confirmation. */
    method DeletePanel(k: string)
      modifies this`deletingPanelId, this`isDeleteDialogOpen
      ensures deletingPanelId == Some(k) && isDeleteDialogOpen
    {
      deletingPanelId := Some(k);
      isDeleteDialogOpen := true;
    }

    /**
     * confirmDelete: with a delete pending, remove every panel with the pending
     * id, clear the pending id and close the dialog; otherwise do nothing.
     */
    method ConfirmDelete()
      requires StorageAgrees()
      modifies this`panels, this`slot, this`deletingPanelId, this`isDeleteDialogOpen
      ensures StorageAgrees()
      ensures old(DeletePending()) ==>
        panels == Filter(old(panels), NotId(old(deletingPanelId).value)) && slot == Some(panels) &&
        deletingPanelId == None && !isDeleteDialogOpen
      ensures !old(DeletePending()) ==>
        panels == old(panels) && slot == old(slot) &&
        deletingPanelId == old(deletingPanelId) && isDeleteDialogOpen == old(isDeleteDialogOpen)
    {
      if deletingPanelId.Some? && deletingPanelId.value != "" {
        SetPanels(Filter(panels, NotId(deletingPanelId.value)));
        deletingPanelId := None;
        isDeleteDialogOpen := false;
      }
    }

    /** The confirmation dialog's cancel: close it, keeping the pending id. */
    method CloseDeleteDialog()
      modifies this`isDeleteDialogOpen
      ensures !isDeleteDialogOpen
    {
      isDeleteDialogOpen := false;
    }

    /** The editor's onClose: close it, keeping `editingPanel`. */
    method CloseModal()
      modifies this`isModalOpen
      ensures !isModalOpen
    {
      isModalOpen := false;
    }

    /**
     * handleSavePanel: when editing, every panel whose id is the edited
     * panel's id gets the new tag and payload, in place and with its id kept
     * (the payload's own id is not re-stamped); otherwise a new panel is
     * appended, its id from one clock read and its payload's id from another.
     */
    method SavePanel(data: PanelData, t: PanelType, clock1: string, clock2: string)
      requires StorageAgrees()
      modifies this`panels, this`slot
      ensures StorageAgrees() && slot == Some(panels)
      ensures old(editingPanel).Some? ==>
        panels == ReplaceId(old(panels), old(editingPanel).value.id, t, data)
      ensures old(editingPanel).None? ==>
        panels == old(panels) + [CreatedPanel(clock1, clock2, t, data)]
    {
      if editingPanel.Some? {
        SetPanels(ReplaceId(panels, editingPanel.value.id, t, data));
      } else {
        SetPanels(panels + [CreatedPanel(clock1, clock2, t, data)]);
      }
    }

    /**
     * The editor's handleSave: the active draft, tagged with its type, goes to
     * handleSavePanel, and then the editor closes. The panels it writes always
     * have a tag that matches their payload.
     */
    method SaveFromEditor(session: EditSession, clock1: string, clock2: string)
      requires StorageAgrees()
      modifies this`panels, this`slot, this`isModalOpen
      ensures StorageAgrees() && slot == Some(panels) && !isModalOpen
      ensures old(editingPanel).Some? ==>
        panels == ReplaceId(old(panels), old(editingPanel).value.id, session.activeTab,
                            Draft(session.activeTab, session.metricData, session.chartData))
      ensures old(editingPanel).None? ==>
        panels == old(panels) + [CreatedPanel(clock1, clock2, session.activeTab,
                                              Draft(session.activeTab, session.metricData, session.chartData))]
      ensures old(AllWellTagged(panels)) ==> AllWellTagged(panels)
    {
      var data, t := session.HandleSave();
      if AllWellTagged(panels) {
        SaveKeepsWellTagged(panels, if editingPanel.Some? then editingPanel.value.id else "", t, data, clock1, clock2);
      }
      SavePanel(data, t, clock1, clock2);
      CloseModal();
    }

    /**
     * handleImport once the file has been read: a parsed array replaces the
     * whole collection; any other parsed value is ignored; a parse failure
     * raises the alert and changes nothing. No file selected: nothing happens.
     */
    method Import(file: Option<Parsed>) returns (alerted: bool)
      requires StorageAgrees()
      modifies this`panels, this`slot
      ensures StorageAgrees()
      ensures alerted <==> file == Some(Malformed)
      ensures file.Some? && file.value.PanelArray? ==> panels == file.value.panels && slot == Some(panels)
      ensures !(file.Some? && file.value.PanelArray?) ==> panels == old(panels) && slot == old(slot)
    {
      alerted := false;
      if file.Some? {
        match file.value
        case Malformed =>
          alerted := true;
        case NotAnArray =>
        case PanelArray(ps) =>
          SetPanels(ps);
      }
    }

    /** handleReset: once confirmed, the collection is the default one again. */
    method Reset(confirmed: bool)
      requires StorageAgrees()
      modifies this`panels, this`slot
      ensures StorageAgrees()
      ensures confirmed ==> panels == DefaultPanels && slot == Some(panels)
      ensures !confirmed ==> panels == old(panels) && slot == old(slot)
    {
      if confirmed {
        SetPanels(DefaultPanels);
      }
    }
  }
}
