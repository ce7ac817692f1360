/**
 * The administration panel (components/AdminEditor.tsx): the editing
 * session over one member record (a partial record that is copied, edited
 * field by field and saved into the store), deletion, the logo upload size
 * check, the comma-separated core-business input, and the field
 * configuration edits.
 */
module AdminEditor {
  import opened Types
  import opened Strings
  import opened Seed
  import opened DataStore
  import DetailCard

  // ---------------------------------------------------------------------
  // A new record
  // ---------------------------------------------------------------------

  /** `custom-${Date.now()}`; the clock reading is a parameter. */
  function NewId(now: nat): (id: string)
    ensures |id| > 7 && id[..7] == "custom-"
  {
    "custom-" + DecimalString(now)
  }

  /** Different clock readings give different ids. */
  lemma NewIdInjective(a: nat, b: nat)
    requires NewId(a) == NewId(b)
    ensures a == b
  {
    var p := "custom-";
    assert DecimalString(a) == NewId(a)[|p|..] == NewId(b)[|p|..] == DecimalString(b);
    DecimalStringInjective(a, b);
  }

  /** No seed record's id has the shape of a new id. */
  lemma NewIdNotSeed(ms: seq<AssociationMember>, now: nat)
    requires IsSeed(ms)
    ensures forall i :: 0 <= i < |ms| ==> ms[i].id != NewId(now)
  {
    forall i | 0 <= i < |ms|
      ensures ms[i].id != NewId(now)
    {
      assert Carries(ms[i], SeedRows[i]);
      var p := SeedRows[i].prefix;
      assert ms[i].id[0] == PrefixText(p)[0];
      assert PrefixText(p)[0] != 'c';
    }
  }

  /** The info object of a new record: every declared key, all empty. */
  const BlankInfo: AssociationInfo :=
    map k | k in ScalarKeys + TagListKeys ::
      if k in TagListKeys then Tags([]) else Scalar(Field("", Auto, None))

  /** The record `startNew` puts in the form. */
  function NewMember(id: string): (m: AssociationMember)
    ensures m.id == id && m.status == Active && m.info == BlankInfo
    ensures m.memberCategory == Association && m.memberType == Member && m.region == Europe
    ensures m.abbreviation == "NEW" && m.nameCN == "新协会" && m.nameEN == ""
    ensures m.coordinates == Coordinates(0.0, 0.0) && m.internalNotes.None?
  {
    AssociationMember(id, Association, Member, "NEW", "", "新协会", "", "", Europe,
                      Coordinates(0.0, 0.0), "", "", "", "", Active, BlankInfo, None)
  }

  /** A new record carries every declared info key with the declared kind of entry. */
  lemma BlankInfoWellFormed()
    ensures WellFormedInfo(BlankInfo)
  {
    forall k | k in ScalarKeys
      ensures k !in TagListKeys
    {
    }
  }

  /** Until something is typed in, a new record shows no field in any section of the card. */
  lemma NewMemberShowsNothing(id: string, config: seq<FieldConfig>, lang: Language, s: Section)
    ensures DetailCard.FieldsForSection(config, NewMember(id).info, lang, s) == []
    ensures DetailCard.CoreBusinessBlock(NewMember(id).info, config, lang).None?
  {
    var items := DetailCard.LookUp(DetailCard.SortByOrder(DetailCard.InSection(config, s)), BlankInfo, lang);
    forall it | it in items
      ensures !DetailCard.Displayable(it.data)
    {
    }
    KeepNone(items);
  }

  lemma {:induction false} KeepNone(items: seq<DetailCard.Item>)
    requires forall it :: it in items ==> !DetailCard.Displayable(it.data)
    ensures DetailCard.KeepDisplayable(items) == []
  {
    if items != [] {
      KeepNone(items[..|items| - 1]);
      assert items[|items| - 1] in items;
    }
  }

  // ---------------------------------------------------------------------
  // Saving
  // ---------------------------------------------------------------------

  predicate HasId(ms: seq<AssociationMember>, id: string) {
    exists i :: 0 <= i < |ms| && ms[i].id == id
  }

  /**
   * `handleSave` on the collection: spread the form over the records with
   * the edited id when there is one, otherwise append the form as a record.
   */
  function AfterSave(ms: seq<AssociationMember>, id: string, form: MemberPatch): seq<AssociationMember>
    requires Complete(form)
  {
    if HasId(ms, id) then Updated(ms, id, form) else Appended(ms, ToMember(form))
  }

  /**
   * After a save the collection holds the form under its id: every record
   * with that id is the form (keeping its own internal note when the form
   * has none), there is at least one, a new id adds exactly one record at
   * the end, and every other record is unchanged.
   */
  lemma SaveStoresForm(ms: seq<AssociationMember>, id: string, form: MemberPatch)
    requires Complete(form) && form.id == Some(id)
    ensures var r := AfterSave(ms, id, form);
      && HasId(r, id)
      && |r| == (if HasId(ms, id) then |ms| else |ms| + 1)
      && (forall i :: 0 <= i < |ms| && ms[i].id != id ==> r[i] == ms[i])
      && (forall i :: 0 <= i < |r| && r[i].id == id ==>
            r[i] == ToMember(form).(internalNotes :=
              if form.internalNotes.Some? || i == |ms| then form.internalNotes else ms[i].internalNotes))
  {
    if HasId(ms, id) {
      SaveIntoExisting(ms, id, form);
    } else {
      SaveAsNew(ms, id, form);
    }
  }

  lemma SaveIntoExisting(ms: seq<AssociationMember>, id: string, form: MemberPatch)
    requires Complete(form) && form.id == Some(id) && HasId(ms, id)
    ensures var r := Updated(ms, id, form);
      && HasId(r, id)
      && (forall i :: 0 <= i < |r| && r[i].id == id ==>
            r[i] == ToMember(form).(internalNotes :=
              if form.internalNotes.Some? then form.internalNotes else ms[i].internalNotes))
  {
    var r := Updated(ms, id, form);
    var m := ToMember(form);
    var j :| 0 <= j < |ms| && ms[j].id == id;
    assert r[j].id == id;
    forall i | 0 <= i < |r| && r[i].id == id
      ensures r[i] == m.(internalNotes := if form.internalNotes.Some? then form.internalNotes else ms[i].internalNotes)
    {
      MergeFullPatch(ms[i], m);
    }
  }

  lemma SaveAsNew(ms: seq<AssociationMember>, id: string, form: MemberPatch)
    requires Complete(form) && form.id == Some(id) && !HasId(ms, id)
    ensures var r := Appended(ms, ToMember(form));
      && HasId(r, id)
      && (forall i :: 0 <= i < |r| && r[i].id == id ==> i == |ms| && r[i] == ToMember(form))
  {
    var r := Appended(ms, ToMember(form));
    assert r[|ms|].id == id;
  }

  /** Saving the same form twice is saving it once. */
  lemma SaveIdempotent(ms: seq<AssociationMember>, id: string, form: MemberPatch)
    requires Complete(form) && form.id == Some(id)
    ensures AfterSave(AfterSave(ms, id, form), id, form) == AfterSave(ms, id, form)
  {
    var once := AfterSave(ms, id, form);
    SaveStoresForm(ms, id, form);
    if HasId(ms, id) {
      UpdateIdempotent(ms, id, form);
    } else {
      var m := ToMember(form);
      forall i | 0 <= i < |once|
        ensures Updated(once, id, form)[i] == once[i]
      {
        if i == |ms| {
          MergeFullPatch(m, m);
        }
      }
    }
  }

  /** Opening a stored record and saving it unchanged changes nothing. */
  lemma SaveUnchanged(ms: seq<AssociationMember>, m: AssociationMember)
    requires forall i :: 0 <= i < |ms| && ms[i].id == m.id ==> ms[i] == m
    requires HasId(ms, m.id)
    ensures AfterSave(ms, m.id, ToPatch(m)) == ms
  {
    forall i | 0 <= i < |ms|
      ensures Updated(ms, m.id, ToPatch(m))[i] == ms[i]
    {
      MergeFullPatch(ms[i], m);
    }
  }

  /** A new record saved into the seed collection is appended. */
  lemma SaveNewIntoSeed(ms: seq<AssociationMember>, now: nat, form: MemberPatch)
    requires IsSeed(ms) && Complete(form)
    ensures AfterSave(ms, NewId(now), form) == Appended(ms, ToMember(form))
  {
    NewIdNotSeed(ms, now);
  }

  // ---------------------------------------------------------------------
  // Form fields
  // ---------------------------------------------------------------------

  /**
   * `updateInfoField(key, v)`: `{ ...info[key], value: v }`. A field keeps
   * its status and source note; a missing key or a tag list becomes a field
   * whose status is absent, which renders like `auto` (no badge).
   */
  function InfoWith(info: AssociationInfo, key: string, v: string): (r: AssociationInfo)
    ensures r.Keys == info.Keys + {key}
    ensures forall k :: k in info && k != key ==> r[k] == info[k]
    ensures r[key].Scalar? && r[key].field.value == v
    ensures key in info && info[key].Scalar? ==>
      r[key].field.status == info[key].field.status && r[key].field.source == info[key].field.source
  {
    var f := if key in info && info[key].Scalar? then info[key].field.(value := v) else Field(v, Auto, None);
    info[key := Scalar(f)]
  }

  /** The textarea's text: `info?.[key]?.value || ''`; a tag list has no value. */
  function FormText(info: AssociationInfo, key: string): string {
    var e: Option<InfoEntry> := Get(info, key);
    match e
    case Some(Scalar(f)) => f.value
    case _ => ""
  }

  /** What is typed into a field's textarea is what the textarea shows, and other fields keep theirs. */
  lemma InfoFieldRoundTrip(info: AssociationInfo, key: string, other: string, v: string)
    requires other != key
    ensures FormText(InfoWith(info, key, v), key) == v
    ensures FormText(InfoWith(info, key, v), other) == FormText(info, other)
  {
  }

  /** `value.split(',').map(s => s.trim())`. */
  function ParseTags(input: string): seq<string> {
    TrimAll(Split(input, ','))
  }

  /** `.map(s => s.trim())`. */
  function TrimAll(ps: seq<string>): (r: seq<string>)
    ensures |r| == |ps| && forall k :: 0 <= k < |ps| ==> r[k] == Trim(ps[k])
  {
    seq(|ps|, k requires 0 <= k < |ps| => Trim(ps[k]))
  }

  /** The input's text: `coreBusiness?.join(', ') || ''`; `None` when the entry is a field, on which `join` throws. */
  function TagsText(info: AssociationInfo): Option<string> {
    var e: Option<InfoEntry> := Get(info, "coreBusiness");
    match e
    case None => Some("")
    case Some(Tags(ts)) => Some(Join(ts, ", "))
    case Some(Scalar(_)) => None
  }

  /**
   * Whatever is typed, the parse is a non-empty list of tags, each without
   * commas and without surrounding whitespace; an input without commas is
   * one tag, its trim.
   */
  lemma ParseTagsSpec(input: string)
    ensures |ParseTags(input)| >= 1
    ensures forall k :: 0 <= k < |ParseTags(input)| ==>
      ',' !in ParseTags(input)[k] && Trim(ParseTags(input)[k]) == ParseTags(input)[k]
    ensures ',' !in input ==> ParseTags(input) == [Trim(input)]
  {
    var parts := Split(input, ',');
    SplitPiecesFree(input, ',');
    forall k | 0 <= k < |parts|
      ensures ',' !in Trim(parts[k]) && Trim(Trim(parts[k])) == Trim(parts[k])
    {
      TrimAddsNothing(parts[k], ',');
      TrimIdempotent(parts[k]);
    }
    if ',' !in input {
      SplitNoSeparator(input, ',');
    }
  }

  /**
   * The input shows the stored tags joined by ", ", and typing that text
   * back stores the same tags.
   */
  lemma TagsTextRoundTrip(info: AssociationInfo, tags: seq<string>)
    requires "coreBusiness" in info && info["coreBusiness"] == Tags(tags)
    requires |tags| >= 1
    requires forall k :: 0 <= k < |tags| ==> ',' !in tags[k] && Trim(tags[k]) == tags[k]
    ensures TagsText(info) == Some(Join(tags, ", "))
    ensures ParseTags(TagsText(info).value) == tags
  {
    ParseTagsRoundTrip(tags);
  }

  /** Without the entry the input is empty; over a plain field it cannot be shown. */
  lemma TagsTextAbsentOrField(info: AssociationInfo)
    ensures "coreBusiness" !in info ==> TagsText(info) == Some("")
    ensures "coreBusiness" in info && info["coreBusiness"].Scalar? ==> TagsText(info).None?
  {
  }

  function LeadSpace(ts: seq<string>): (r: seq<string>)
    ensures |r| == |ts| && forall k :: 0 <= k < |ts| ==> r[k] == " " + ts[k]
  {
    if ts == [] then [] else [" " + ts[0]] + LeadSpace(ts[1..])
  }

  /** Joining with ", " is joining with "," the pieces after the first prefixed by a space. */
  lemma {:induction false} JoinComma(p: string, ts: seq<string>)
    requires |ts| >= 1
    ensures p + Join(ts, ", ") == Join([p + ts[0]] + LeadSpace(ts[1..]), ",")
    decreases |ts|
  {
    if |ts| > 1 {
      JoinComma(" ", ts[1..]);
      var sp := [p + ts[0]] + LeadSpace(ts[1..]);
      assert sp[1..] == [" " + ts[1]] + LeadSpace(ts[2..]) by {
        assert ts[1..][1..] == ts[2..];
      }
      calc {
        Join(sp, ",");
        p + ts[0] + "," + Join(sp[1..], ",");
        p + ts[0] + "," + (" " + Join(ts[1..], ", "));
        p + (ts[0] + ", " + Join(ts[1..], ", "));
      }
    }
  }

  /**
   * The core-business input round-trips: a non-empty list of trimmed tags
   * without commas, shown joined with ", ", parses back to itself.
   */
  lemma ParseTagsRoundTrip(tags: seq<string>)
    requires |tags| >= 1
    requires forall k :: 0 <= k < |tags| ==> ',' !in tags[k] && Trim(tags[k]) == tags[k]
    ensures ParseTags(Join(tags, ", ")) == tags
  {
    var sp := [tags[0]] + LeadSpace(tags[1..]);
    assert Join(tags, ", ") == Join(sp, ",") by {
      JoinComma("", tags);
      assert "" + tags[0] == tags[0];
      assert "" + Join(tags, ", ") == Join(tags, ", ");
    }
    SpacedPieces(tags);
    SplitJoin(sp, ',');
    assert Split(Join(sp, ","), ',') == sp;
  }

  /** The pieces between the commas: separator-free, and trimming gives the tags back. */
  lemma SpacedPieces(tags: seq<string>)
    requires |tags| >= 1
    requires forall k :: 0 <= k < |tags| ==> ',' !in tags[k] && Trim(tags[k]) == tags[k]
    ensures var sp := [tags[0]] + LeadSpace(tags[1..]);
      (forall k :: 0 <= k < |sp| ==> ',' !in sp[k]) && TrimAll(sp) == tags
  {
    var sp := [tags[0]] + LeadSpace(tags[1..]);
    assert |sp| == |tags|;
    forall k | 0 <= k < |sp|
      ensures ',' !in sp[k] && Trim(sp[k]) == tags[k]
    {
      if k > 0 {
        assert sp[k] == " " + tags[k];
        SpacedPiece(tags[k]);
      }
    }
    var r := TrimAll(sp);
    assert forall k :: 0 <= k < |tags| ==> r[k] == tags[k];
  }

  lemma SpacedPiece(t: string)
    requires ',' !in t && Trim(t) == t
    ensures ',' !in " " + t && Trim(" " + t) == t
  {
    TrimLeadingSpace(t);
  }

  /** Clearing the input leaves one empty tag, not an empty list. */
  lemma ClearedTagsInput()
    ensures ParseTags("") == [""]
  {
  }

  /**
   * So a cleared input still renders the core-business block on the card,
   * with one empty tag, whenever its configuration entry is visible.
   */
  lemma ClearedInputStillShown(info: AssociationInfo, config: seq<FieldConfig>, lang: Language)
    requires DetailCard.FindKey(config, "coreBusiness").Some?
    requires config[DetailCard.FindKey(config, "coreBusiness").value].visible
    ensures var b := DetailCard.CoreBusinessBlock(info["coreBusiness" := Tags(ParseTags(""))], config, lang);
      b.Some? && b.value.tags == [""]
  {
    ClearedTagsInput();
  }

  // ---------------------------------------------------------------------
  // Field configuration edits
  // ---------------------------------------------------------------------

  /** The eye button: flip the visibility of entry `idx`. */
  function VisibilityToggled(config: seq<FieldConfig>, idx: nat): seq<FieldConfig>
    requires idx < |config|
  {
    config[idx := config[idx].(visible := !config[idx].visible)]
  }

  /** The Chinese label input of entry `idx`. */
  function RelabelledCN(config: seq<FieldConfig>, idx: nat, text: string): seq<FieldConfig>
    requires idx < |config|
  {
    config[idx := config[idx].(labelCN := text)]
  }

  /** The English label input of entry `idx`. */
  function RelabelledEN(config: seq<FieldConfig>, idx: nat, text: string): seq<FieldConfig>
    requires idx < |config|
  {
    config[idx := config[idx].(labelEN := text)]
  }

  /** Entries agree on key, section and order: the card's layout is the same. */
  predicate SameLayout(a: seq<FieldConfig>, b: seq<FieldConfig>) {
    |a| == |b| &&
    forall i :: 0 <= i < |a| ==>
      a[i].key == b[i].key && a[i].section == b[i].section && a[i].order == b[i].order
  }

  /**
   * The configuration edits keep the layout, touch only entry `idx`, and
   * each changes only the one property it edits.
   */
  lemma ConfigEditsKeepLayout(config: seq<FieldConfig>, idx: nat, text: string)
    requires idx < |config|
    ensures SameLayout(VisibilityToggled(config, idx), config)
    ensures SameLayout(RelabelledCN(config, idx, text), config)
    ensures SameLayout(RelabelledEN(config, idx, text), config)
    ensures forall i :: 0 <= i < |config| && i != idx ==>
      VisibilityToggled(config, idx)[i] == RelabelledCN(config, idx, text)[i]
        == RelabelledEN(config, idx, text)[i] == config[i]
    ensures VisibilityToggled(config, idx)[idx].visible != config[idx].visible
    ensures RelabelledCN(config, idx, text)[idx].labelCN == text
    ensures RelabelledEN(config, idx, text)[idx].labelEN == text
  {
  }

  /** Pressing the eye button twice restores the configuration. */
  lemma ToggleVisibilityTwice(config: seq<FieldConfig>, idx: nat)
    requires idx < |config|
    ensures VisibilityToggled(VisibilityToggled(config, idx), idx) == config
  {
  }

  /** Hiding an entry removes it from its section on the card. */
  lemma HiddenEntryLeavesSection(config: seq<FieldConfig>, idx: nat, info: AssociationInfo, s: Section)
    requires idx < |config| && config[idx].visible
    ensures var hidden := VisibilityToggled(config, idx);
      hidden[idx] !in DetailCard.ShownEntries(hidden, info, s)
  {
    var hidden := VisibilityToggled(config, idx);
    DetailCard.FieldsForSectionSpec(hidden, info, Zh, s, 0);
  }

  // ---------------------------------------------------------------------
  // The panel's state
  // ---------------------------------------------------------------------

  /** A chosen file: its size in bytes and its content as a data URL. */
  datatype UploadedFile = UploadedFile(size: nat, dataUrl: string)

  /** The logo upload limit, 500 KB. */
  const MaxLogoBytes: nat := 500 * 1024

  class Editor {
    var editingId: Option<string>
    var formData: MemberPatch
    const store: Store

    /** While a record is open, the form is a full record carrying the open id. */
    ghost predicate Valid()
      reads this, store, store.storage
    {
      && store.Valid()
      && (editingId.Some? ==> Complete(formData) && formData.id == editingId)
    }

    constructor (store: Store)
      requires store.Valid()
      ensures Valid() && this.store == store
      ensures editingId.None? && formData == EmptyPatch
    {
      this.store := store;
      editingId := None;
      formData := EmptyPatch;
    }

    /** `startEdit`: open a copy of the record. */
    method StartEdit(m: AssociationMember)
      requires Valid()
      modifies this
      ensures Valid()
      ensures formData == ToPatch(m) && editingId == Some(m.id)
    {
      formData := ToPatch(m);
      editingId := Some(m.id);
    }

    /** `startNew`: open a blank record under a fresh id. */
    method StartNew(now: nat)
      requires Valid()
      modifies this
      ensures Valid()
      ensures formData == ToPatch(NewMember(NewId(now))) && editingId == Some(NewId(now))
    {
      var id := NewId(now);
      formData := ToPatch(NewMember(id));
      editingId := Some(id);
    }

    /**
     * `handleSave`: nothing happens without an open record with a non-empty
     * id; otherwise the form is saved and the record closed.
     */
    method HandleSave()
      requires Valid()
      modifies this, store, store.storage
      ensures Valid()
      ensures formData == old(formData)
      ensures old(editingId).None? || old(editingId) == Some("") ==>
        editingId == old(editingId) && unchanged(store) && unchanged(store.storage)
      ensures old(editingId).Some? && old(editingId) != Some("") ==>
        && editingId.None? && !store.membersIsSeedArray
        && store.members == AfterSave(old(store.members), old(editingId).value, formData)
        && store.storage.items == MembersWritten(old(store.storage.items), old(store.isInitialized), store.members)
      ensures store.fieldConfig == old(store.fieldConfig) && store.language == old(store.language)
      ensures store.isInitialized == old(store.isInitialized) && store.isAdminMode == old(store.isAdminMode)
      ensures store.configIsDefaultArray == old(store.configIsDefaultArray)
    {
      if editingId.None? || editingId == Some("") {
        return;
      }
      var id := editingId.value;
      if HasId(store.members, id) {
        store.UpdateMember(id, formData);
      } else {
        store.AddMember(ToMember(formData));
      }
      editingId := None;
    }

    /** `handleDelete`: once confirmed, delete the record and close it if it is open. */
    method HandleDelete(id: string, confirmed: bool)
      requires Valid()
      modifies this, store, store.storage
      ensures Valid()
      ensures formData == old(formData)
      ensures !confirmed ==> editingId == old(editingId) && unchanged(store) && unchanged(store.storage)
      ensures confirmed ==>
        && store.members == Removed(old(store.members), id) && !store.membersIsSeedArray
        && store.storage.items == MembersWritten(old(store.storage.items), old(store.isInitialized), store.members)
        && editingId == (if old(editingId) == Some(id) then None else old(editingId))
      ensures store.fieldConfig == old(store.fieldConfig) && store.language == old(store.language)
      ensures store.isInitialized == old(store.isInitialized) && store.isAdminMode == old(store.isAdminMode)
      ensures store.configIsDefaultArray == old(store.configIsDefaultArray)
    {
      if confirmed {
        store.DeleteMember(id);
        if editingId == Some(id) {
          editingId := None;
        }
      }
    }

    /**
     * `handleLogoUpload`: no file does nothing; a file over the limit is
     * refused with an alert; otherwise its data URL becomes the logo.
     */
    method Upload(file: Option<UploadedFile>) returns (alerted: bool)
      requires Valid()
      modifies this
      ensures Valid()
      ensures alerted <==> file.Some? && file.value.size > MaxLogoBytes
      ensures editingId == old(editingId)
      ensures file.Some? && !alerted ==> formData == old(formData).(logo := Some(file.value.dataUrl))
      ensures file.None? || alerted ==> formData == old(formData)
    {
      alerted := false;
      if file.Some? {
        if file.value.size > MaxLogoBytes {
          alerted := true;
        } else {
          formData := formData.(logo := Some(file.value.dataUrl));
        }
      }
    }

    /** The plain inputs of the form: spread the changed properties over the form. */
    method EditForm(change: MemberPatch)
      requires Valid() && change.id.None?
      modifies this
      ensures Valid()
      ensures formData == MergePatch(old(formData), change) && editingId == old(editingId)
    {
      formData := MergePatch(formData, change);
    }

    /** The latitude input: `{ ...coordinates, lat }`. */
    method SetLatitude(lat: real)
      requires Valid() && editingId.Some?
      modifies this
      ensures Valid()
      ensures formData == old(formData).(coordinates := Some(old(formData).coordinates.value.(lat := lat)))
      ensures editingId == old(editingId)
    {
      formData := formData.(coordinates := Some(formData.coordinates.value.(lat := lat)));
    }

    /** The longitude input: `{ ...coordinates, lng }`. */
    method SetLongitude(lng: real)
      requires Valid() && editingId.Some?
      modifies this
      ensures Valid()
      ensures formData == old(formData).(coordinates := Some(old(formData).coordinates.value.(lng := lng)))
      ensures editingId == old(editingId)
    {
      formData := formData.(coordinates := Some(formData.coordinates.value.(lng := lng)));
    }

    /** A profile textarea: `updateInfoField(key, v)`. */
    method UpdateInfoField(key: string, v: string)
      requires Valid() && editingId.Some?
      modifies this
      ensures Valid()
      ensures formData == old(formData).(info := Some(InfoWith(old(formData).info.value, key, v)))
      ensures editingId == old(editingId)
    {
      formData := formData.(info := Some(InfoWith(formData.info.value, key, v)));
    }

    /** The core-business input: the comma-separated text becomes the tag list. */
    method SetCoreBusiness(input: string)
      requires Valid() && editingId.Some?
      modifies this
      ensures Valid()
      ensures formData == old(formData).(info := Some(old(formData).info.value["coreBusiness" := Tags(ParseTags(input))]))
      ensures editingId == old(editingId)
    {
      formData := formData.(info := Some(formData.info.value["coreBusiness" := Tags(ParseTags(input))]));
    }

    /** The cancel button closes the record without saving. */
    method Cancel()
      requires Valid()
      modifies this
      ensures Valid()
      ensures editingId.None? && formData == old(formData)
    {
      editingId := None;
    }

    /** The eye button of configuration entry `idx`. */
    method ToggleVisible(idx: nat)
      requires Valid() && idx < |store.fieldConfig|
      modifies store, store.storage
      ensures Valid()
      ensures store.fieldConfig == VisibilityToggled(old(store.fieldConfig), idx)
      ensures store.storage.items == ConfigWritten(old(store.storage.items), old(store.isInitialized), store.fieldConfig)
      ensures store.members == old(store.members) && store.language == old(store.language)
      ensures store.isInitialized == old(store.isInitialized) && store.isAdminMode == old(store.isAdminMode)
      ensures !store.configIsDefaultArray && store.membersIsSeedArray == old(store.membersIsSeedArray)
    {
      store.UpdateFieldConfig(VisibilityToggled(store.fieldConfig, idx));
    }

    /** The Chinese label input of configuration entry `idx`. */
    method SetLabelCN(idx: nat, text: string)
      requires Valid() && idx < |store.fieldConfig|
      modifies store, store.storage
      ensures Valid()
      ensures store.fieldConfig == RelabelledCN(old(store.fieldConfig), idx, text)
      ensures store.storage.items == ConfigWritten(old(store.storage.items), old(store.isInitialized), store.fieldConfig)
      ensures store.members == old(store.members) && store.language == old(store.language)
      ensures store.isInitialized == old(store.isInitialized) && store.isAdminMode == old(store.isAdminMode)
      ensures !store.configIsDefaultArray && store.membersIsSeedArray == old(store.membersIsSeedArray)
    {
      store.UpdateFieldConfig(RelabelledCN(store.fieldConfig, idx, text));
    }

    /** The English label input of configuration entry `idx`. */
    method SetLabelEN(idx: nat, text: string)
      requires Valid() && idx < |store.fieldConfig|
      modifies store, store.storage
      ensures Valid()
      ensures store.fieldConfig == RelabelledEN(old(store.fieldConfig), idx, text)
      ensures store.storage.items == ConfigWritten(old(store.storage.items), old(store.isInitialized), store.fieldConfig)
      ensures store.members == old(store.members) && store.language == old(store.language)
      ensures store.isInitialized == old(store.isInitialized) && store.isAdminMode == old(store.isAdminMode)
      ensures !store.configIsDefaultArray && store.membersIsSeedArray == old(store.membersIsSeedArray)
    {
      store.UpdateFieldConfig(RelabelledEN(store.fieldConfig, idx, text));
    }
  }
}
