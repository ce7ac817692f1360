/**
 * The identity of the field-configuration entries. The rest of the model
 * keeps the configuration as a value; this module keeps track of which
 * entry objects the configuration in use shares with DEFAULT_FIELD_CONFIG.
 *
 * At start-up, and again after a reset, the configuration in use is the
 * DEFAULT_FIELD_CONFIG array itself (contexts/DataContext.tsx:29, 92). A
 * configuration read back from storage is made of fresh objects
 * (contexts/DataContext.tsx:44). The panel's edits copy the array but change
 * the entry object at `idx` in place (components/AdminEditor.tsx:178-180,
 * 194-196, 207-209), so while the entries are shared every edit also edits
 * DEFAULT_FIELD_CONFIG, and a reset brings the edited entries back.
 *
 * `EditInPlace` and `ResetAsWritten` follow the code as it is written;
 * `EditCopying` is the edit that replaces the entry by an edited copy,
 * which is what the store model does with its value-typed configuration.
 */
module SharedConfig {
  import opened Types
  import opened Constants
  import AdminEditor

  /** The three edits the panel offers on one configuration entry. */
  datatype ConfigEdit = ToggleVisible | SetLabelCN(cn: string) | SetLabelEN(en: string)

  /** An edit of entry `idx`. */
  datatype EditAt = EditAt(idx: nat, edit: ConfigEdit)

  /** The configuration an edit produces, as values. */
  function ApplyEdit(config: seq<FieldConfig>, idx: nat, e: ConfigEdit): (r: seq<FieldConfig>)
    requires idx < |config|
    ensures AdminEditor.SameLayout(r, config)
    ensures forall i :: 0 <= i < |config| && i != idx ==> r[i] == config[i]
  {
    AdminEditor.ConfigEditsKeepLayout(config, idx, if e.SetLabelCN? then e.cn else if e.SetLabelEN? then e.en else "");
    match e
    case ToggleVisible => AdminEditor.VisibilityToggled(config, idx)
    case SetLabelCN(t) => AdminEditor.RelabelledCN(config, idx, t)
    case SetLabelEN(t) => AdminEditor.RelabelledEN(config, idx, t)
  }

  /**
   * The entry objects as far as the configuration goes: what the objects
   * DEFAULT_FIELD_CONFIG holds currently contain, what the configuration in
   * use contains, and whether the configuration in use is made of those
   * very objects.
   */
  datatype Entries = Entries(defaultEntries: seq<FieldConfig>, inUse: seq<FieldConfig>, shared: bool)

  /** Start-up: the configuration in use is DEFAULT_FIELD_CONFIG. */
  const Start: Entries := Entries(DefaultFieldConfig, DefaultFieldConfig, true)

  /** Start-up with a saved configuration: fresh objects parsed from storage. */
  function Loaded(saved: seq<FieldConfig>): (h: Entries)
    ensures h.defaultEntries == DefaultFieldConfig && h.inUse == saved && !h.shared
  {
    Entries(DefaultFieldConfig, saved, false)
  }

  /**
   * The edit as written: a copy of the array whose entry `idx` is the same
   * object, changed in place; when that object belongs to
   * DEFAULT_FIELD_CONFIG, DEFAULT_FIELD_CONFIG changes with it.
   */
  function EditInPlace(h: Entries, a: EditAt): (r: Entries)
    requires a.idx < |h.inUse|
    ensures r.inUse == ApplyEdit(h.inUse, a.idx, a.edit) && r.shared == h.shared
    ensures !h.shared ==> r.defaultEntries == h.defaultEntries
    ensures h.shared ==> r.defaultEntries == r.inUse
  {
    var edited := ApplyEdit(h.inUse, a.idx, a.edit);
    Entries(if h.shared then edited else h.defaultEntries, edited, h.shared)
  }

  /** The edit as intended: entry `idx` is replaced by an edited copy. */
  function EditCopying(h: Entries, a: EditAt): (r: Entries)
    requires a.idx < |h.inUse|
    ensures r.inUse == ApplyEdit(h.inUse, a.idx, a.edit) && r.defaultEntries == h.defaultEntries
  {
    Entries(h.defaultEntries, ApplyEdit(h.inUse, a.idx, a.edit), false)
  }

  /** `resetToDefaults`: the configuration in use becomes DEFAULT_FIELD_CONFIG again. */
  function ResetAsWritten(h: Entries): (r: Entries)
    ensures r.inUse == h.defaultEntries && r.shared
  {
    Entries(h.defaultEntries, h.defaultEntries, true)
  }

  /** Every edit of `es` addresses an entry of a configuration of `n` entries. */
  predicate InRange(es: seq<EditAt>, n: nat) {
    forall k :: 0 <= k < |es| ==> es[k].idx < n
  }

  /** A run of edits as written, first to last. */
  function EditsInPlace(h: Entries, es: seq<EditAt>): Entries
    requires InRange(es, |h.inUse|)
    decreases |es|
  {
    if es == [] then h else EditsInPlace(EditInPlace(h, es[0]), es[1..])
  }

  /** A run of copying edits, first to last. */
  function EditsCopying(h: Entries, es: seq<EditAt>): Entries
    requires InRange(es, |h.inUse|)
    decreases |es|
  {
    if es == [] then h else EditsCopying(EditCopying(h, es[0]), es[1..])
  }

  /**
   * As written: while the entries are shared, DEFAULT_FIELD_CONFIG follows
   * every edit, so the configuration a reset restores is the edited one and
   * not the declared default.
   */
  lemma {:induction false} ResetAfterInPlaceEdits(h: Entries, es: seq<EditAt>)
    requires h.shared && h.defaultEntries == h.inUse
    requires InRange(es, |h.inUse|)
    ensures var after := EditsInPlace(h, es);
      after.shared && after.defaultEntries == after.inUse && ResetAsWritten(after) == after
    decreases |es|
  {
    if es != [] {
      var next := EditInPlace(h, es[0]);
      assert |next.inUse| == |h.inUse|;
      assert InRange(es[1..], |next.inUse|);
      ResetAfterInPlaceEdits(next, es[1..]);
    }
  }

  /**
   * The input that shows it: hide `yearEstablished` right after start-up and
   * reset; the field stays hidden, and the configuration shown is not
   * DEFAULT_FIELD_CONFIG.
   */
  lemma HideThenResetKeepsHidden()
    ensures var after := ResetAsWritten(EditInPlace(Start, EditAt(0, ToggleVisible)));
      !after.inUse[0].visible && after.inUse != DefaultFieldConfig
  {
    var after := ResetAsWritten(EditInPlace(Start, EditAt(0, ToggleVisible)));
    assert after.inUse[0] == DefaultFieldConfig[0].(visible := false);
  }

  /**
   * As intended: copying edits never touch DEFAULT_FIELD_CONFIG, so after
   * any run of them, from start-up or from a saved configuration, a reset
   * restores the declared defaults.
   */
  lemma {:induction false} ResetAfterCopyingEdits(h: Entries, es: seq<EditAt>)
    requires h.defaultEntries == DefaultFieldConfig
    requires InRange(es, |h.inUse|)
    ensures EditsCopying(h, es).defaultEntries == DefaultFieldConfig
    ensures ResetAsWritten(EditsCopying(h, es)).inUse == DefaultFieldConfig
    decreases |es|
  {
    if es != [] {
      var next := EditCopying(h, es[0]);
      assert |next.inUse| == |h.inUse|;
      assert InRange(es[1..], |next.inUse|);
      ResetAfterCopyingEdits(next, es[1..]);
    }
  }
}
