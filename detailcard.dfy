/**
 * The member card (components/AssociationDetailCard.tsx): which configured
 * fields a section shows and in what order, the logo fallback, the
 * verification badge, the core-business tag block, and the card's own
 * state (logo status, view mode, open accordion, internal note).
 */
module DetailCard {
  import opened Types
  import opened Strings
  import opened Constants
  import opened Storage
  import DataStore

  /** `getLabel`: the label of a configuration entry in the current language. */
  function GetLabel(lang: Language, f: FieldConfig): string
  {
    if lang == Zh then f.labelCN else f.labelEN
  }

  // ---------------------------------------------------------------------
  // Section fields: filter, stable sort by order, look up, drop undisclosed
  // ---------------------------------------------------------------------

  /** `fieldConfig.filter(f => f.section === section && f.visible)`. */
  function InSection(config: seq<FieldConfig>, s: Section): (r: seq<FieldConfig>)
    ensures forall e :: e in r <==> e in config && e.section == s && e.visible
  {
    if config == [] then []
    else
      var last := config[|config| - 1];
      InSection(config[..|config| - 1], s) + (if last.section == s && last.visible then [last] else [])
  }

  predicate SortedByOrder(es: seq<FieldConfig>) {
    forall i, j :: 0 <= i < j < |es| ==> es[i].order <= es[j].order
  }

  /** The entries of `es` whose order is `k`, in their order in `es`. */
  function WithOrder(es: seq<FieldConfig>, k: int): seq<FieldConfig> {
    if es == [] then []
    else
      var last := es[|es| - 1];
      WithOrder(es[..|es| - 1], k) + (if last.order == k then [last] else [])
  }

  lemma WithOrderSnoc(s: seq<FieldConfig>, x: FieldConfig, k: int)
    ensures WithOrder(s + [x], k) == WithOrder(s, k) + (if x.order == k then [x] else [])
  {
    assert (s + [x])[..|s|] == s;
  }

  /** Insert `x` right after the last entry whose order is not larger. */
  function Insert(t: seq<FieldConfig>, x: FieldConfig): seq<FieldConfig> {
    if t == [] || t[|t| - 1].order <= x.order then t + [x]
    else Insert(t[..|t| - 1], x) + [t[|t| - 1]]
  }

  /** Inserting adds exactly the one entry. */
  lemma {:induction false} InsertPermutes(t: seq<FieldConfig>, x: FieldConfig)
    ensures multiset(Insert(t, x)) == multiset(t) + multiset{x}
  {
    if t != [] && t[|t| - 1].order > x.order {
      var init := t[..|t| - 1];
      InsertPermutes(init, x);
      assert t == init + [t[|t| - 1]];
    }
  }

  /**
   * `.sort((a, b) => a.order - b.order)`: ascending by order, and stable
   * (entries of equal order keep their relative order), as
   * `Array.prototype.sort` is.
   */
  function SortByOrder(es: seq<FieldConfig>): (r: seq<FieldConfig>)
    ensures multiset(r) == multiset(es)
  {
    if es == [] then []
    else
      var init := es[..|es| - 1];
      assert es == init + [es[|es| - 1]];
      InsertPermutes(SortByOrder(init), es[|es| - 1]);
      Insert(SortByOrder(init), es[|es| - 1])
  }

  lemma {:induction false} InsertSorted(t: seq<FieldConfig>, x: FieldConfig)
    requires SortedByOrder(t)
    ensures SortedByOrder(Insert(t, x))
  {
    if t != [] && t[|t| - 1].order > x.order {
      var init, y := t[..|t| - 1], t[|t| - 1];
      InsertSorted(init, x);
      var u := Insert(init, x);
      InsertPermutes(init, x);
      forall i | 0 <= i < |u|
        ensures u[i].order <= y.order
      {
        assert u[i] in multiset(u);
        assert u[i] in multiset(init) || u[i] == x;
        if u[i] in multiset(init) {
          var j :| 0 <= j < |init| && init[j] == u[i];
          assert t[j] == u[i];
        }
      }
    }
  }

  /** The sort yields ascending order. */
  lemma {:induction false} SortSorted(es: seq<FieldConfig>)
    ensures SortedByOrder(SortByOrder(es))
  {
    if es != [] {
      SortSorted(es[..|es| - 1]);
      InsertSorted(SortByOrder(es[..|es| - 1]), es[|es| - 1]);
    }
  }

  /** Inserting `x` adds it after every entry of its own order. */
  lemma {:induction false} InsertWithOrder(t: seq<FieldConfig>, x: FieldConfig, k: int)
    ensures WithOrder(Insert(t, x), k) == WithOrder(t, k) + (if x.order == k then [x] else [])
  {
    if t == [] || t[|t| - 1].order <= x.order {
      WithOrderSnoc(t, x, k);
    } else {
      var init, y := t[..|t| - 1], t[|t| - 1];
      assert t == init + [y];
      var u := Insert(init, x);
      assert Insert(t, x) == u + [y];
      InsertWithOrder(init, x, k);
      WithOrderSnoc(u, y, k);
      WithOrderSnoc(init, y, k);
      var base := WithOrder(init, k);
      // x comes before y, so at most one of them has order k
      if x.order == k {
        assert WithOrder(Insert(t, x), k) == base + [x] + [];
        assert WithOrder(t, k) == base + [];
      } else if y.order == k {
        assert WithOrder(Insert(t, x), k) == base + [] + [y];
        assert WithOrder(t, k) == base + [y];
      } else {
        assert WithOrder(Insert(t, x), k) == base + [] + [];
        assert WithOrder(t, k) == base + [];
      }
    }
  }

  /** The sort is stable: among entries of one order, the input order is kept. */
  lemma {:induction false} SortStable(es: seq<FieldConfig>, k: int)
    ensures WithOrder(SortByOrder(es), k) == WithOrder(es, k)
  {
    if es != [] {
      var init, x := es[..|es| - 1], es[|es| - 1];
      SortStable(init, k);
      InsertWithOrder(SortByOrder(init), x, k);
    }
  }

  /**
   * Whether a looked-up info value is rendered: present, a field rather than
   * a tag list, with a non-empty value that does not contain the
   * undisclosed marker (a substring test, not an equality).
   */
  predicate Displayable(d: Option<InfoEntry>) {
    && d.Some? && d.value.Scalar?
    && d.value.field.value != ""
    && !Contains(d.value.field.value, UndisclosedMarker)
  }

  /** An item of the section list: `{ label, data: info[f.key] }` (the label is the caption). */
  datatype Item = Item(caption: string, data: Option<InfoEntry>)

  /** `.map(f => ({ label: getLabel(f), data: info[f.key] }))`. */
  function LookUp(es: seq<FieldConfig>, info: AssociationInfo, lang: Language): (r: seq<Item>)
    ensures |r| == |es|
    ensures forall i :: 0 <= i < |es| ==> r[i] == Item(GetLabel(lang, es[i]), Get(info, es[i].key))
  {
    if es == [] then []
    else
      var last := es[|es| - 1];
      LookUp(es[..|es| - 1], info, lang) + [Item(GetLabel(lang, last), Get(info, last.key))]
  }

  /** `.filter(item => item.data && item.data.value && !item.data.value.includes(...))`. */
  function KeepDisplayable(items: seq<Item>): (r: seq<Item>)
    ensures forall it :: it in r <==> it in items && Displayable(it.data)
  {
    if items == [] then []
    else
      var last := items[|items| - 1];
      KeepDisplayable(items[..|items| - 1]) + (if Displayable(last.data) then [last] else [])
  }

  /** `getFieldsForSection(section)`. */
  function FieldsForSection(config: seq<FieldConfig>, info: AssociationInfo, lang: Language,
                            s: Section): seq<Item> {
    KeepDisplayable(LookUp(SortByOrder(InSection(config, s)), info, lang))
  }

  /** The configuration entries whose values a section shows: the reference definition. */
  function KeepShown(es: seq<FieldConfig>, info: AssociationInfo): (r: seq<FieldConfig>)
    ensures forall e :: e in r <==> e in es && Displayable(Get(info, e.key))
  {
    if es == [] then []
    else
      var last := es[|es| - 1];
      KeepShown(es[..|es| - 1], info) + (if Displayable(Get(info, last.key)) then [last] else [])
  }

  function ShownEntries(config: seq<FieldConfig>, info: AssociationInfo, s: Section): seq<FieldConfig> {
    KeepShown(SortByOrder(InSection(config, s)), info)
  }

  /** Looking up and then dropping is dropping the entries and then looking up. */
  lemma {:induction false} LookUpKeep(es: seq<FieldConfig>, info: AssociationInfo, lang: Language)
    ensures KeepDisplayable(LookUp(es, info, lang)) == LookUp(KeepShown(es, info), info, lang)
  {
    if es != [] {
      var init, last := es[..|es| - 1], es[|es| - 1];
      LookUpKeep(init, info, lang);
      var items := LookUp(es, info, lang);
      assert items[..|items| - 1] == LookUp(init, info, lang);
      var kept := KeepShown(init, info);
      if Displayable(Get(info, last.key)) {
        var both := kept + [last];
        assert both[..|both| - 1] == kept;
      }
    }
  }

  /** Dropping undisclosed entries and picking one order commute. */
  lemma {:induction false} KeepWithOrder(es: seq<FieldConfig>, info: AssociationInfo, k: int)
    ensures WithOrder(KeepShown(es, info), k) == KeepShown(WithOrder(es, k), info)
  {
    if es != [] {
      var init, last := es[..|es| - 1], es[|es| - 1];
      assert es == init + [last];
      KeepWithOrder(init, info, k);
      KeepShownSnoc(init, last, info);
      WithOrderSnoc(init, last, k);
      var kept := KeepShown(init, info);
      var ordered := WithOrder(init, k);
      if Displayable(Get(info, last.key)) {
        WithOrderSnoc(kept, last, k);
      } else {
        assert KeepShown(es, info) == kept + [] == kept;
      }
      if last.order == k {
        KeepShownSnoc(ordered, last, info);
      } else {
        assert WithOrder(es, k) == ordered + [] == ordered;
      }
    }
  }

  lemma KeepShownSnoc(s: seq<FieldConfig>, x: FieldConfig, info: AssociationInfo)
    ensures KeepShown(s + [x], info) == KeepShown(s, info) + (if Displayable(Get(info, x.key)) then [x] else [])
  {
    assert (s + [x])[..|s|] == s;
  }

  /** A sub-sequence of an ascending sequence is ascending. */
  lemma {:induction false} KeepShownSorted(es: seq<FieldConfig>, info: AssociationInfo)
    requires SortedByOrder(es)
    ensures SortedByOrder(KeepShown(es, info))
  {
    if es != [] {
      var init, last := es[..|es| - 1], es[|es| - 1];
      KeepShownSorted(init, info);
      var kept := KeepShown(init, info);
      forall i | 0 <= i < |kept|
        ensures kept[i].order <= last.order
      {
        assert kept[i] in init;
      }
    }
  }

  /**
   * What a section shows, item by item: the label of the i-th shown entry in
   * the current language and that entry's info value; the entries are exactly
   * the configuration entries of the section that are visible and whose
   * value is displayable; they come in ascending order, and entries of equal
   * order keep their configuration order.
   */
  lemma FieldsForSectionSpec(config: seq<FieldConfig>, info: AssociationInfo, lang: Language,
                             s: Section, k: int)
    ensures var shown := ShownEntries(config, info, s);
      && FieldsForSection(config, info, lang, s) == LookUp(shown, info, lang)
      && (forall e :: e in shown <==>
            e in config && e.section == s && e.visible && Displayable(Get(info, e.key)))
      && SortedByOrder(shown)
      && WithOrder(shown, k) == KeepShown(WithOrder(InSection(config, s), k), info)
  {
    var sorted := SortByOrder(InSection(config, s));
    LookUpKeep(sorted, info, lang);
    SortSorted(InSection(config, s));
    KeepShownSorted(sorted, info);
    KeepWithOrder(sorted, info, k);
    SortStable(InSection(config, s), k);
    forall e | e in sorted
      ensures e in InSection(config, s)
    {
      assert e in multiset(sorted);
    }
    forall e | e in InSection(config, s)
      ensures e in sorted
    {
      assert e in multiset(InSection(config, s));
    }
  }

  /** Every item shown carries a field with a non-empty, disclosed value. */
  lemma FieldsForSectionDisplayable(config: seq<FieldConfig>, info: AssociationInfo, lang: Language,
                                    s: Section)
    ensures forall it :: it in FieldsForSection(config, info, lang, s) ==>
      it.data.Some? && it.data.value.Scalar? && it.data.value.field.value != ""
      && !Contains(it.data.value.field.value, UndisclosedMarker)
  {
  }

  /** A field holding the TBD sentinel is never shown. */
  lemma TbdNotDisplayable(status: VerificationStatus)
    ensures !Displayable(Some(Scalar(MakeField(Tbd, status))))
  {
    TbdIsUndisclosed();
  }

  // ---------------------------------------------------------------------
  // Badge and core-business block
  // ---------------------------------------------------------------------

  /** `StatusBadge`: the badge text, or no badge. */
  function StatusBadge(status: VerificationStatus, lang: Language): (r: Option<string>)
    ensures r.Some? <==> status != Auto
    ensures status == Confirmed ==> r == Some(VerifiedLabel(lang))
    ensures status == Pending ==> r == Some(PendingLabel(lang))
  {
    match status
    case Confirmed => Some(VerifiedLabel(lang))
    case Pending => Some(PendingLabel(lang))
    case Auto => None
  }

  /** Confirmed and pending fields carry different badges in either language. */
  lemma BadgesDiffer(lang: Language)
    ensures StatusBadge(Confirmed, lang) != StatusBadge(Pending, lang)
  {
  }

  /** `fieldConfig.find(f => f.key === key)`, as the index of the first match. */
  function FindKey(config: seq<FieldConfig>, key: string): (r: Option<nat>)
    ensures r.Some? ==> r.value < |config| && config[r.value].key == key
    ensures r.Some? ==> forall j :: 0 <= j < r.value ==> config[j].key != key
    ensures r.None? ==> forall j :: 0 <= j < |config| ==> config[j].key != key
  {
    if config == [] then None
    else if config[0].key == key then Some(0)
    else match FindKey(config[1..], key)
      case None => None
      case Some(i) => Some(i + 1)
  }

  /** The core-business block: a heading and the tags. */
  datatype TagBlock = TagBlock(heading: string, tags: seq<string>)

  /**
   * The block renders when the member's `coreBusiness` is a non-empty tag
   * list and the first `coreBusiness` entry of the configuration is visible;
   * its heading is that entry's label, or the translated default when the
   * label is empty.
   */
  function CoreBusinessBlock(info: AssociationInfo, config: seq<FieldConfig>, lang: Language): (r: Option<TagBlock>)
    ensures r.Some? <==>
      && "coreBusiness" in info && info["coreBusiness"].Tags? && |info["coreBusiness"].tags| > 0
      && FindKey(config, "coreBusiness").Some? && config[FindKey(config, "coreBusiness").value].visible
    ensures r.Some? ==> r.value.tags == info["coreBusiness"].tags
  {
    var entry: Option<InfoEntry> := Get(info, "coreBusiness");
    var found := FindKey(config, "coreBusiness");
    if entry.Some? && entry.value.Tags? && |entry.value.tags| > 0
       && found.Some? && config[found.value].visible
    then
      var title := GetLabel(lang, config[found.value]);
      Some(TagBlock(if title != "" then title else CoreBusinessLabel(lang), entry.value.tags))
    else None
  }

  /**
   * With the default configuration the block shows exactly the non-empty
   * tag lists, under the translated default heading.
   */
  lemma CoreBusinessDefault(info: AssociationInfo, lang: Language)
    ensures var r := CoreBusinessBlock(info, DefaultFieldConfig, lang);
      && (r.Some? <==> "coreBusiness" in info && info["coreBusiness"].Tags? && |info["coreBusiness"].tags| > 0)
      && (r.Some? ==> r.value.heading == CoreBusinessLabel(lang))
  {
    DefaultCoreBusinessEntry();
    CoreBusinessHeading(info, DefaultFieldConfig, lang, 11);
  }

  /** The default configuration's `coreBusiness` entry is its twelfth, visible, with the default labels. */
  lemma DefaultCoreBusinessEntry()
    ensures FindKey(DefaultFieldConfig, "coreBusiness") == Some(11)
    ensures DefaultFieldConfig[11] == FieldConfig("coreBusiness", "核心业务", "Core Business", true, Hidden, 99)
  {
    DefaultKeysDistinct();
    FindDistinctKey(DefaultFieldConfig, 11);
  }

  /** The heading comes from the first `coreBusiness` entry, falling back to the translation. */
  lemma CoreBusinessHeading(info: AssociationInfo, config: seq<FieldConfig>, lang: Language, i: nat)
    requires FindKey(config, "coreBusiness") == Some(i)
    ensures var r := CoreBusinessBlock(info, config, lang);
      r.Some? ==> r.value.heading == (if GetLabel(lang, config[i]) != "" then GetLabel(lang, config[i])
                                      else CoreBusinessLabel(lang))
  {
  }

  /** When keys are distinct, `find` by the key of entry `i` finds entry `i`. */
  lemma {:induction false} FindDistinctKey(config: seq<FieldConfig>, i: nat)
    requires i < |config|
    requires forall a, b :: 0 <= a < b < |config| ==> config[a].key != config[b].key
    ensures FindKey(config, config[i].key) == Some(i)
  {
    if i > 0 {
      FindDistinctKey(config[1..], i - 1);
    }
  }

  // ---------------------------------------------------------------------
  // Logo fallback
  // ---------------------------------------------------------------------

  datatype LogoStatus = Primary | Backup | Failed

  /** The image tried: the member's logo, or the favicon service for its website. */
  datatype ImageSource = LogoUrl(url: string) | FaviconOf(website: string)

  /** `handleImageError`: the next status after a failed image load. */
  function NextLogoStatus(s: LogoStatus, website: string): LogoStatus {
    if s == Primary && website != "" then Backup else Failed
  }

  /** `currentSrc`: undefined when the backup has no website or the status is failed. */
  function CurrentSrc(s: LogoStatus, d: AssociationMember): Option<ImageSource> {
    match s
    case Primary => Some(LogoUrl(d.logo))
    case Backup => if d.website != "" then Some(FaviconOf(d.website)) else None
    case Failed => None
  }

  /** `showImage`: a truthy source (the favicon URL is never empty) and not failed. */
  function ShowImage(s: LogoStatus, d: AssociationMember): (r: bool)
    ensures r ==> s != Failed
  {
    match CurrentSrc(s, d)
    case Some(LogoUrl(u)) => u != "" && s != Failed
    case Some(FaviconOf(_)) => s != Failed
    case None => false
  }

  /**
   * The image shows the logo while primary and the logo is non-empty, the
   * favicon while on backup with a website, and nothing otherwise.
   */
  lemma ShowImageCases(s: LogoStatus, d: AssociationMember)
    ensures ShowImage(s, d) <==> (s == Primary && d.logo != "") || (s == Backup && d.website != "")
  {
  }

  /**
   * Error transitions: primary falls back to the favicon only when there is
   * a website; any second error, or an error on backup, ends in failed, and
   * failed is final.
   */
  lemma LogoErrorPath(s: LogoStatus, d: AssociationMember)
    ensures NextLogoStatus(s, d.website) == Backup <==> s == Primary && d.website != ""
    ensures NextLogoStatus(NextLogoStatus(s, d.website), d.website) == Failed
    ensures !ShowImage(NextLogoStatus(NextLogoStatus(s, d.website), d.website), d)
    ensures ShowImage(NextLogoStatus(Primary, d.website), d) <==> d.website != ""
  {
  }

  // ---------------------------------------------------------------------
  // The card's state
  // ---------------------------------------------------------------------

  datatype ViewMode = Summary | Full

  /** The storage key of a member's internal note, `note_${id}`. */
  function NoteKey(id: string): (k: string)
    ensures |k| == |id| + 5 && k[..5] == "note_"
  {
    "note_" + id
  }

  /** Notes never share a key with the stored collections. */
  lemma NoteKeyDistinct(id: string)
    ensures NoteKey(id) != DataStore.MembersKey && NoteKey(id) != DataStore.ConfigKey
  {
    assert NoteKey(id)[0] == 'n';
    assert DataStore.MembersKey[0] == 'i' && DataStore.ConfigKey[0] == 'i';
  }

  /** Writing a note does not change what a page load of the store shows. */
  lemma NoteKeepsStore(items: map<string, Stored>, seed: seq<AssociationMember>,
                       defaults: seq<FieldConfig>, id: string, v: string)
    ensures DataStore.Reload(items[NoteKey(id) := Text(v)], seed, defaults) == DataStore.Reload(items, seed, defaults)
  {
    NoteKeyDistinct(id);
    DataStore.ReloadOtherKey(items, seed, defaults, NoteKey(id), Text(v));
  }

  /** `savedNote || data.internalNotes || ''`. */
  function LoadedNote(items: map<string, Stored>, d: AssociationMember): string {
    match Saved(items, NoteKey(d.id))
    case Some(Text(t)) => t
    case _ =>
      if d.internalNotes.Some? then d.internalNotes.value else ""
  }

  /**
   * A note typed in is what the card shows the next time it loads that
   * member, unless it was erased, when the record's own note shows again.
   */
  lemma NoteRoundTrip(items: map<string, Stored>, d: AssociationMember, v: string)
    ensures LoadedNote(items[NoteKey(d.id) := Text(v)], d) ==
      if v != "" then v else if d.internalNotes.Some? then d.internalNotes.value else ""
  {
  }

  class Card {
    var data: AssociationMember
    var logoStatus: LogoStatus
    var viewMode: ViewMode
    var expandedSection: Option<string>
    var internalNote: string
    const storage: LocalStorage

    /** Mounting with `data`: the initial state, then the effect on `data.id`. */
    constructor (data: AssociationMember, storage: LocalStorage)
      ensures this.data == data && this.storage == storage
      ensures logoStatus == Primary && viewMode == Summary
      ensures expandedSection == Some("background")
      ensures internalNote == LoadedNote(storage.items, data)
    {
      this.data := data;
      this.storage := storage;
      logoStatus := Primary;
      viewMode := Summary;
      expandedSection := Some("background");
      internalNote := LoadedNote(storage.items, data);
    }

    /**
     * New props: the effect keyed on `data.id` runs only when the id
     * changed, resetting the logo, the view mode and the open section and
     * loading the note.
     */
    method ShowMember(next: AssociationMember)
      modifies this
      ensures data == next
      ensures next.id != old(data.id) ==>
        && logoStatus == Primary && viewMode == Summary
        && expandedSection == Some("background")
        && internalNote == LoadedNote(storage.items, next)
      ensures next.id == old(data.id) ==>
        && logoStatus == old(logoStatus) && viewMode == old(viewMode)
        && expandedSection == old(expandedSection) && internalNote == old(internalNote)
    {
      var changed := next.id != data.id;
      data := next;
      if changed {
        logoStatus := Primary;
        viewMode := Summary;
        expandedSection := Some("background");
        internalNote := LoadedNote(storage.items, next);
      }
    }

    /** `handleImageError`. */
    method OnImageError()
      modifies this
      ensures logoStatus == NextLogoStatus(old(logoStatus), data.website)
      ensures data == old(data) && viewMode == old(viewMode)
      ensures expandedSection == old(expandedSection) && internalNote == old(internalNote)
    {
      if logoStatus == Primary && data.website != "" {
        logoStatus := Backup;
      } else {
        logoStatus := Failed;
      }
    }

    /** `handleNoteChange`: show the note and store it under the member's note key. */
    method OnNoteChange(v: string)
      modifies this, storage
      ensures internalNote == v
      ensures storage.items == old(storage.items)[NoteKey(data.id) := Text(v)]
      ensures data == old(data) && logoStatus == old(logoStatus)
      ensures viewMode == old(viewMode) && expandedSection == old(expandedSection)
      ensures forall seed, defaults ::
        DataStore.Reload(storage.items, seed, defaults) == DataStore.Reload(old(storage.items), seed, defaults)
    {
      internalNote := v;
      storage.SetItem(NoteKey(data.id), Text(v));
      forall seed, defaults
        ensures DataStore.Reload(storage.items, seed, defaults) == DataStore.Reload(old(storage.items), seed, defaults)
      {
        NoteKeepsStore(old(storage.items), seed, defaults, data.id, v);
      }
    }

    /** The footer button: summary and full profile alternate. */
    method ToggleViewMode()
      modifies this
      ensures viewMode == (if old(viewMode) == Summary then Full else Summary)
      ensures data == old(data) && logoStatus == old(logoStatus)
      ensures expandedSection == old(expandedSection) && internalNote == old(internalNote)
    {
      viewMode := if viewMode == Summary then Full else Summary;
    }

    /** An accordion header: closes the section if it is open, otherwise opens it alone. */
    method ToggleSection(name: string)
      modifies this
      ensures expandedSection == (if old(expandedSection) == Some(name) then None else Some(name))
      ensures data == old(data) && logoStatus == old(logoStatus)
      ensures viewMode == old(viewMode) && internalNote == old(internalNote)
    {
      expandedSection := if expandedSection == Some(name) then None else Some(name);
    }
  }
}
