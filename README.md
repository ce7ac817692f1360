# IFPSM members map: a verified model of its data core

The IFPSM members map shows the member associations of the International
Federation of Purchasing and Supply Management on a world map. Each
association has a bilingual detail card, and an administrator panel edits the
records and the field layout. Everything is kept in the browser's
`localStorage`. This project models the data core of that application in Dafny:

- **`types.dfy` (module `Types`)** holds the record types. These are the
  association member, its info fields with verification status, the field
  configuration, regions, sections and languages. It also holds the partial
  update (`Partial<AssociationMember>`) and the spread merge `{ ...m, ...updates }`.
- **`constants.dfy` (module `Constants`)** holds the region colours, the
  affiliate style, the translated labels the core uses, the `TBD` text, the
  `field` helper and the 13-entry default field configuration.
- **`seed.dfy` (module `Seed`)** holds the bundled 40-record member table. It
  records the columns the core branches on: id, category, type, abbreviation,
  region and status.
- **`strings.dfy` (module `Strings`)** covers the string operations the
  components call: `includes`, `split`, `join`, `trim`, and decimal rendering
  of a number. Each has its defining properties.
- **`storage.dfy` (module `Storage`)** is `localStorage` as a key-value map.
- **`datastore.dfy` (module `DataStore`)** is the `DataProvider` store. It
  covers:
  - the one-time load from storage;
  - the two persistence effects;
  - add, update, delete and toggle of members;
  - configuration update;
  - the language and admin switches;
  - the confirmed reset.

  The `Store` class keeps an invariant: once initialised, what storage holds is
  exactly what a page load would show again.
- **`detailcard.dfy` (module `DetailCard`)** is the member detail card. It
  covers:
  - the per-section field list (filter, sort by order, look up, drop
    empty or undisclosed values);
  - status badges;
  - the core-business tag block;
  - the logo fallback chain (logo, favicon, initials);
  - the per-member private note;
  - the card's view state.
- **`admineditor.dfy` (module `AdminEditor`)** is the admin panel. It covers
  starting an edit or a new record, saving, deleting, logo upload with its
  size limit, the form edits, comma-separated tag input and the field
  configuration edits.
- **`mapview.dfy` (module `MapView`)** holds the map's data rules: which
  members get a marker, the marker colour, the stroke dash, the tooltip text
  and selection.

Where the source changes state step by step, the model is a class with
`modifies` clauses: the store (`DataStore.Store`), the browser storage
(`Storage.LocalStorage`), the card (`DetailCard.Card`) and the editor
(`AdminEditor.Editor`). Each state change is specified by a pure function of
the old state. The properties of those functions are proved as lemmas.

## Model

| member | source | states |
|---|---|---|
| Types.GetUpdate | types.ts:20-35 | A written key reads back as the written value and a deleted key reads as absent; no other key reads differently |
| Types.Merge | contexts/DataContext.tsx:68 | Defines `{ ...m, ...updates }`; its behaviour on full, empty, repeated and successive updates is stated by the four lemmas that follow |
| Types.ToMember | types.ts:38-68 | A partial record with every required field set is a full record whose partial view is the record itself |
| Types.ToPatchRoundTrip | types.ts:38-68 | Viewing a record as a partial record and back gives the same record |
| Types.MergeFullPatch | contexts/DataContext.tsx:67-69 | Spreading a full record over another yields that record, except that an unset optional note keeps the old one |
| Types.MergeEmptyPatch | contexts/DataContext.tsx:67-69 | Spreading an empty update changes nothing |
| Types.MergeIdempotent | contexts/DataContext.tsx:67-69 | Spreading the same update twice is spreading it once |
| Types.MergeCompose | contexts/DataContext.tsx:67-69 | Two successive updates equal one update that is their combination, later fields winning |
| Constants.MakeFieldDefault | constants.ts:77 | The `field` helper's status defaults to `auto`, and it sets no source |
| Constants.MakeField | constants.ts:77 | Defines the `field` helper; `MakeFieldDefault` states its default |
| Constants.RegionColors | constants.ts:3-8 | Defines the region styles; `RegionColorsDistinct` states that the fills differ |
| Constants.RegionLabel | constants.ts:36-65 | Defines the region labels of both languages; `DataStore.ToggleRelabelsRegions` states how the language switch changes them |
| Constants.VerifiedLabel | constants.ts:40-66 | Defines the `verified` label; `DetailCard.StatusBadge` and `DetailCard.BadgesDiffer` state its use |
| Constants.PendingLabel | constants.ts:41-67 | Defines the `pending` label; `DetailCard.StatusBadge` and `DetailCard.BadgesDiffer` state its use |
| Constants.CoreBusinessLabel | constants.ts:29-55 | Defines the `coreBusiness` label; `DetailCard.CoreBusinessHeading` states its use |
| Constants.TbdIsUndisclosed | constants.ts:76 | The `TBD` text contains the undisclosed marker the card filters on |
| Constants.DefaultKeysDistinct | constants.ts:80-101 | No two default configuration entries share a key |
| Constants.DefaultOrders | constants.ts:80-101 | Within each shown section the default entries have distinct orders; basic uses 1-4, background 1-3, influence 1-4 and hidden entries 99 |
| Constants.DefaultVisibility | constants.ts:80-101 | `industryCoverage` is the only default entry that is not visible |
| Constants.RegionColorsDistinct | constants.ts:3-8 | Different regions have different fill colours |
| Seed.SeedPositions | constants.ts:103-353 | The table has 40 records, and each record's place follows from its region prefix and number |
| Seed.RowId | constants.ts:103-353 | Defines a seed id as `<prefix>-<number>`; `Seed.RowIdInjective` states that it determines both |
| Seed.PrefixTextInjective | constants.ts:103-353 | Different id prefixes are different texts |
| Seed.RowIdInjective | constants.ts:103-353 | Two records with the same id have the same prefix and number |
| Seed.SeedIdsDistinct | constants.ts:103-353 | No two seed records share an id |
| Seed.SeedAllActiveAssociations | constants.ts:103-353 | Every seed record is an active association |
| Seed.SeedHasBme | constants.ts:130 | The fifth record is `eu-5`, BME, an active European member |
| Seed.SeedFacts | constants.ts:103-353 | Any collection equal to the seed has distinct ids and only active associations, and record 4 is BME |
| Strings.ContainsAt | components/AssociationDetailCard.tsx:82 | `includes` holds exactly when the substring occurs at some position |
| Strings.ContainsWitness | components/AssociationDetailCard.tsx:82 | When `includes` holds, the substring occurs at some position |
| Strings.OccursContains | components/AssociationDetailCard.tsx:82 | An occurrence at any position makes `includes` hold |
| Strings.ContainsPrefix | constants.ts:76 | A text contains each of its prefixes |
| Strings.Split | components/AdminEditor.tsx:288 | `split` gives at least one piece; `JoinSplit`, `SplitJoin`, `SplitNoSeparator` and `SplitPiecesFree` state the rest |
| Strings.Join | components/AdminEditor.tsx:287 | Defines `join`; `JoinSplit` and `SplitJoin` state that it undoes `split` |
| Strings.SplitPiecesFree | components/AdminEditor.tsx:288 | No piece of a split contains the separator |
| Strings.JoinSplit | components/AdminEditor.tsx:288 | Splitting at a character and joining with it gives the input back |
| Strings.SplitJoin | components/AdminEditor.tsx:288 | Joining separator-free pieces and splitting again gives the pieces back |
| Strings.SplitNoSeparator | components/AdminEditor.tsx:288 | Text without the separator splits into itself alone |
| Strings.TrimStartSpec | components/AdminEditor.tsx:288 | Drops exactly the leading whitespace: the result is a suffix that starts with non-whitespace |
| Strings.TrimEndSpec | components/AdminEditor.tsx:288 | Drops exactly the trailing whitespace: the result is a prefix that ends with non-whitespace |
| Strings.Trim | components/AdminEditor.tsx:288 | Defines `trim` as dropping leading then trailing whitespace; `TrimSpec` states what it keeps |
| Strings.TrimAddsNothing | components/AdminEditor.tsx:288 | A character absent from the input is absent from its trim |
| Strings.TrimSpec | components/AdminEditor.tsx:288 | `trim` is the input minus its leading and trailing whitespace, and has none of its own |
| Strings.TrimTrimmed | components/AdminEditor.tsx:288 | Text with no whitespace at either end is left as it is |
| Strings.TrimIdempotent | components/AdminEditor.tsx:288 | Trimming twice is trimming once |
| Strings.TrimLeadingSpace | components/AdminEditor.tsx:288 | A leading space is trimmed away |
| Strings.DecimalString | components/AdminEditor.tsx:20 | A number's decimal text is non-empty, all digits, and has no leading zero |
| Strings.DecimalStringInjective | components/AdminEditor.tsx:20 | Different numbers have different decimal texts |
| Strings.DigitChar | components/AdminEditor.tsx:20 | A digit below ten is one of the characters 0-9 |
| Strings.DigitCharInjective | components/AdminEditor.tsx:20 | Different digits are different characters |
| Strings.DashThenDigits | components/AdminEditor.tsx:20 | In `<prefix>-<number>` the dash sits right after the prefix and only digits follow it |
| Strings.DashNumberInjective | constants.ts:103-353 | `<prefix>-<number>` determines both the prefix and the number |
| Storage.SavedAfterWrite | contexts/DataContext.tsx:35-38 | A written value reads back as saved unless it is the empty string, a removed key reads as nothing saved, and other keys read as before |
| Storage.LocalStorage.constructor | contexts/DataContext.tsx:35-36 | The browser storage starts with the items it was given |
| Storage.LocalStorage.SetItem | contexts/DataContext.tsx:53 | `setItem` maps the key to the value and leaves other keys alone |
| Storage.LocalStorage.RemoveItem | contexts/DataContext.tsx:93-94 | `removeItem` removes the key and only it |
| DataStore.KeysDistinct | contexts/DataContext.tsx:22-25 | The members key and the configuration key differ |
| DataStore.Appended | contexts/DataContext.tsx:63-65 | Adding keeps every old record in place and puts the new one last |
| DataStore.Updated | contexts/DataContext.tsx:67-69 | Updating keeps the length, merges the update into each record with the id, and keeps all others |
| DataStore.Removed | contexts/DataContext.tsx:71-73 | Deleting keeps exactly the records whose id differs |
| DataStore.Toggled | contexts/DataContext.tsx:75-79 | Toggling keeps the length, flips the status of each record with the id, and keeps all others |
| DataStore.UpdateAbsent | contexts/DataContext.tsx:67-69 | An update for an id no record has changes nothing |
| DataStore.UpdateIdempotent | contexts/DataContext.tsx:67-69 | Applying the same update twice is applying it once |
| DataStore.RemovedConcat | contexts/DataContext.tsx:71-73 | Deleting keeps the order of the remaining records |
| DataStore.RemoveIdempotent | contexts/DataContext.tsx:71-73 | Deleting twice is deleting once |
| DataStore.RemoveAbsent | contexts/DataContext.tsx:71-73 | Deleting an id no record has changes nothing |
| DataStore.RemoveAppended | contexts/DataContext.tsx:63-73 | Deleting the id of a just-added record is deleting it from the old collection |
| DataStore.ToggleInvolution | contexts/DataContext.tsx:75-79 | Toggling the same id twice restores the collection |
| DataStore.ToggleOnlyStatus | contexts/DataContext.tsx:75-79 | A toggle changes only the status, and only on the records with the id |
| DataStore.OtherLanguageInvolution | contexts/DataContext.tsx:85-87 | The language switch always changes the language and is its own inverse |
| DataStore.ToggleRelabelsRegions | constants.ts:36-65 | The language switch changes the label of every region and a second switch restores it; from Chinese, Europe goes from 欧洲 to Europe |
| DataStore.LoadMembers | contexts/DataContext.tsx:35-42 | Defines the members a page load shows; `ReloadEmpty`, `ReloadPersisted` and `ReloadMembersWritten` state it |
| DataStore.LoadConfig | contexts/DataContext.tsx:36-46 | Defines the configuration a page load shows; `ReloadEmpty`, `ReloadPersisted` and `ReloadConfigWritten` state it |
| DataStore.Reload | contexts/DataContext.tsx:29-49 | Defines what a page load shows; the `Reload…` lemmas that follow state it |
| DataStore.MembersWritten | contexts/DataContext.tsx:51-55 | Defines the members effect's write; `ReloadMembersWritten` states what a page load then shows |
| DataStore.ConfigWritten | contexts/DataContext.tsx:57-61 | Defines the configuration effect's write; `ReloadConfigWritten` states what a page load then shows |
| DataStore.ReloadEmpty | contexts/DataContext.tsx:34-49 | With nothing saved, a page load shows the seed with the default configuration |
| DataStore.ReloadPersisted | contexts/DataContext.tsx:34-61 | Both collections written under their keys are what the next page load shows |
| DataStore.ReloadMembersWritten | contexts/DataContext.tsx:34-55 | Rewriting the members key changes only the members a page load shows |
| DataStore.ReloadConfigWritten | contexts/DataContext.tsx:34-61 | Rewriting the configuration key changes only the configuration a page load shows |
| DataStore.ReloadOtherKey | contexts/DataContext.tsx:34-49 | Writing any other key changes nothing a page load shows |
| DataStore.ResetStorage | contexts/DataContext.tsx:89-96 | After a reset a key is present exactly when its persistence effect re-ran; all other keys are untouched |
| DataStore.ReloadAfterReset | contexts/DataContext.tsx:89-96 | After a reset, a page load shows the seed and the default configuration |
| DataStore.Store.constructor | contexts/DataContext.tsx:28-32 | The initial state: no members, the default configuration, Chinese, not admin, not initialised |
| DataStore.Store.PersistMembers | contexts/DataContext.tsx:51-55 | The members are written under their key only once the store is initialised |
| DataStore.Store.PersistConfig | contexts/DataContext.tsx:57-61 | The configuration is written under its key only once the store is initialised |
| DataStore.Store.Initialize | contexts/DataContext.tsx:34-49 | Loads the saved members, or the seed, and the saved configuration, or keeps the current one; fails without change on unusable saved values; records whether each collection is still the seed or default array; the store invariant holds afterwards |
| DataStore.Store.SetMembers | contexts/DataContext.tsx:51-55 | The members become the new collection, no longer the seed array, written under their key once initialised; the configuration is unchanged and the invariant is kept |
| DataStore.Store.AddMember | contexts/DataContext.tsx:63-65 | The members become the appended collection (no longer the seed array), persisted when initialised; nothing else changes; the invariant is kept |
| DataStore.Store.UpdateMember | contexts/DataContext.tsx:67-69 | The members become the updated collection (no longer the seed array), persisted when initialised; nothing else changes |
| DataStore.Store.DeleteMember | contexts/DataContext.tsx:71-73 | The members become the filtered collection (no longer the seed array), persisted when initialised; nothing else changes |
| DataStore.Store.ToggleMemberStatus | contexts/DataContext.tsx:75-79 | The members become the toggled collection (no longer the seed array), persisted when initialised; nothing else changes |
| DataStore.Store.UpdateFieldConfig | contexts/DataContext.tsx:81-83 | The configuration becomes the new one, persisted when initialised; the members are unchanged |
| DataStore.Store.ToggleLanguage | contexts/DataContext.tsx:85-87 | Switches to the other language, so every region label changes, and changes nothing else: members and configuration stay as they were |
| DataStore.Store.ToggleAdminMode | contexts/DataContext.tsx:104 | Flips admin mode and changes nothing else |
| DataStore.Store.ResetToDefaults | contexts/DataContext.tsx:89-96 | When confirmed, shows the seed and the defaults and removes both keys, re-written only by effects whose collection changed; when declined, changes nothing |
| DetailCard.InSection | components/AssociationDetailCard.tsx:76 | Keeps exactly the visible entries of the section |
| DetailCard.GetLabel | components/AssociationDetailCard.tsx:54 | Defines the label in the current language; `LookUp` and `CoreBusinessHeading` state its use |
| DetailCard.Insert | components/AssociationDetailCard.tsx:77 | Defines one step of the stable insertion sort; `InsertPermutes`, `InsertSorted` and `InsertWithOrder` state it |
| DetailCard.WithOrderSnoc | components/AssociationDetailCard.tsx:77 | Selecting the entries of one order from a list extended at the end extends the selection by that entry when it has the order |
| DetailCard.InsertPermutes | components/AssociationDetailCard.tsx:77 | Inserting adds exactly the one entry |
| DetailCard.SortByOrder | components/AssociationDetailCard.tsx:77 | Sorting is a permutation of the entries |
| DetailCard.InsertSorted | components/AssociationDetailCard.tsx:77 | Inserting into a list sorted by order keeps it sorted |
| DetailCard.SortSorted | components/AssociationDetailCard.tsx:77 | Sorting yields a list sorted by ascending order |
| DetailCard.InsertWithOrder | components/AssociationDetailCard.tsx:77 | Inserting puts the entry after every entry of equal order |
| DetailCard.SortStable | components/AssociationDetailCard.tsx:77 | Sorting is stable: entries of equal order keep their relative order |
| DetailCard.LookUp | components/AssociationDetailCard.tsx:78-81 | Each entry becomes its label in the current language with its info value, position by position |
| DetailCard.KeepDisplayable | components/AssociationDetailCard.tsx:82 | Keeps exactly the items whose value is a non-empty text without the undisclosed marker |
| DetailCard.KeepShown | components/AssociationDetailCard.tsx:82 | Keeps exactly the entries whose info value is displayable |
| DetailCard.LookUpKeep | components/AssociationDetailCard.tsx:78-82 | Looking up then dropping undisplayable items equals dropping the entries first, then looking up |
| DetailCard.KeepWithOrder | components/AssociationDetailCard.tsx:77-82 | Dropping entries and then selecting one order equals selecting the order and then dropping |
| DetailCard.KeepShownSnoc | components/AssociationDetailCard.tsx:82 | Filtering a list extended at the end extends the result by that entry when it is displayable |
| DetailCard.KeepShownSorted | components/AssociationDetailCard.tsx:77-82 | Filtering a sorted list keeps it sorted |
| DetailCard.FieldsForSectionSpec | components/AssociationDetailCard.tsx:74-83 | A section lists exactly the visible entries of that section with a displayable value. They are sorted by order, equal orders keep their configuration order, and each is labelled in the current language |
| DetailCard.FieldsForSectionDisplayable | components/AssociationDetailCard.tsx:82 | Every listed item has a non-empty text value without the undisclosed marker |
| DetailCard.TbdNotDisplayable | components/AssociationDetailCard.tsx:82 | A `TBD` value is never listed, whatever its status |
| DetailCard.FieldsForSection | components/AssociationDetailCard.tsx:74-83 | Defines the section's field list; `FieldsForSectionSpec` and `FieldsForSectionDisplayable` state it |
| DetailCard.StatusBadge | components/AssociationDetailCard.tsx:57-61 | A badge is shown exactly for confirmed and pending values: the translated `verified` label for confirmed, the translated `pending` label for pending |
| DetailCard.BadgesDiffer | components/AssociationDetailCard.tsx:57-61 | The confirmed and pending badges differ |
| DetailCard.FindKey | components/AssociationDetailCard.tsx:159 | `find` returns the first entry with the key, or none when no entry has it |
| DetailCard.FindDistinctKey | components/AssociationDetailCard.tsx:159 | With distinct keys, `find` returns the entry's own position |
| DetailCard.CoreBusinessBlock | components/AssociationDetailCard.tsx:159-168 | The tag block is shown exactly when there are tags and the first `coreBusiness` entry is visible, and it lists those tags |
| DetailCard.CoreBusinessHeading | components/AssociationDetailCard.tsx:163 | The heading is the entry's label in the current language, or the translated default when that label is empty |
| DetailCard.DefaultCoreBusinessEntry | constants.ts:80-101 | The default configuration's `coreBusiness` entry is the twelfth, visible, in the hidden section |
| DetailCard.CoreBusinessDefault | components/AssociationDetailCard.tsx:159-168 | Under the default configuration the block shows exactly when there are tags, headed "Core Business" in the current language |
| DetailCard.ShowImage | components/AssociationDetailCard.tsx:48 | An image is shown only when the logo has not failed |
| DetailCard.ShowImageCases | components/AssociationDetailCard.tsx:45-48 | An image shows exactly for the primary status with a logo, or the backup status with a website |
| DetailCard.NextLogoStatus | components/AssociationDetailCard.tsx:40-43 | Defines the status after a failed load; `LogoErrorPath` states the fallback chain |
| DetailCard.CurrentSrc | components/AssociationDetailCard.tsx:45-47 | Defines the image source; `ShowImageCases` states when an image shows |
| DetailCard.LogoErrorPath | components/AssociationDetailCard.tsx:40-48 | A load error moves to the favicon exactly from the primary logo with a website; two errors always end in failed, which shows no image |
| DetailCard.NoteKey | components/AssociationDetailCard.tsx:30 | A note key is `note_` followed by the member id |
| DetailCard.NoteKeyDistinct | components/AssociationDetailCard.tsx:30 | A note key never collides with the members or configuration key |
| DetailCard.NoteKeepsStore | components/AssociationDetailCard.tsx:37 | Saving a note changes nothing a page load of the store shows |
| DetailCard.LoadedNote | components/AssociationDetailCard.tsx:30-31 | Defines the note a card loads; `NoteRoundTrip` states that it is the typed note, or the record's own when erased |
| DetailCard.NoteRoundTrip | components/AssociationDetailCard.tsx:30-37 | A typed note is what the card loads next time for that member; an erased note falls back to the record's own note |
| DetailCard.Card.constructor | components/AssociationDetailCard.tsx:21-32 | Mounting shows the primary logo, the summary view, the background section open, and the loaded note |
| DetailCard.Card.ShowMember | components/AssociationDetailCard.tsx:26-32 | A different member resets the card's view state and reloads the note; the same id keeps the view state |
| DetailCard.Card.OnImageError | components/AssociationDetailCard.tsx:40-43 | The logo status steps along the fallback chain; nothing else changes |
| DetailCard.Card.OnNoteChange | components/AssociationDetailCard.tsx:34-38 | The note shown is the typed text, and it is stored under the member's note key; what a page load of the store shows is unchanged |
| DetailCard.Card.ToggleViewMode | components/AssociationDetailCard.tsx:209 | Switches between summary and full view; nothing else changes |
| DetailCard.Card.ToggleSection | components/AssociationDetailCard.tsx:178-188 | Opens the named section, or closes it when it was the open one |
| AdminEditor.NewId | components/AdminEditor.tsx:20 | A new id is `custom-` followed by the timestamp's digits |
| AdminEditor.NewIdInjective | components/AdminEditor.tsx:20 | Different timestamps give different new ids |
| AdminEditor.NewIdNotSeed | components/AdminEditor.tsx:20 | A new id never equals a seed id |
| AdminEditor.NewMember | components/AdminEditor.tsx:21-52 | The blank record has the new id, is an active European association of type Member, abbreviated `NEW`, named 新协会 in Chinese and nothing in English, at coordinates (0, 0), without a note, and has the blank info |
| AdminEditor.BlankInfoWellFormed | components/AdminEditor.tsx:37-51 | The blank info has every scalar and tag key, each of the right kind |
| AdminEditor.NewMemberShowsNothing | components/AdminEditor.tsx:37-51 | A blank record lists no field in any section and shows no tag block, whatever the configuration |
| AdminEditor.KeepNone | components/AssociationDetailCard.tsx:82 | Items none of which is displayable all drop out |
| AdminEditor.AfterSave | components/AdminEditor.tsx:57-68 | Defines the collection after a save; `SaveStoresForm` and the `Save…` lemmas that follow state it |
| AdminEditor.SaveStoresForm | components/AdminEditor.tsx:57-68 | After a save the id is present, the length grows only for a new id, other records are untouched, and the saved record is the form |
| AdminEditor.SaveIntoExisting | components/AdminEditor.tsx:61-63 | Saving an existing id replaces each record with that id by the form |
| AdminEditor.SaveAsNew | components/AdminEditor.tsx:64-65 | Saving a new id appends the form as the only record with that id |
| AdminEditor.SaveIdempotent | components/AdminEditor.tsx:57-68 | Saving the same form twice is saving it once |
| AdminEditor.SaveUnchanged | components/AdminEditor.tsx:14-17 | Saving an unedited form leaves the collection as it was |
| AdminEditor.SaveNewIntoSeed | components/AdminEditor.tsx:19-68 | Saving a new record over the seed appends it |
| AdminEditor.InfoWith | components/AdminEditor.tsx:94-102 | Sets the field's value, keeps its status and source, and leaves every other field as it was |
| AdminEditor.FormText | components/AdminEditor.tsx:278 | Defines the textarea's text; `InfoFieldRoundTrip` states it |
| AdminEditor.InfoFieldRoundTrip | components/AdminEditor.tsx:94-102 | What is typed into a field is what its textarea shows; other fields keep theirs |
| AdminEditor.ParseTags | components/AdminEditor.tsx:288 | Defines the parse of the core-business input; `ParseTagsSpec` and `ParseTagsRoundTrip` state its properties |
| AdminEditor.ParseTagsSpec | components/AdminEditor.tsx:288 | Any input parses to at least one tag, none with a comma or surrounding whitespace; an input without commas is one tag, its trim |
| AdminEditor.TagsText | components/AdminEditor.tsx:287 | Defines the input's text; `TagsTextRoundTrip` and `TagsTextAbsentOrField` state it |
| AdminEditor.TagsTextRoundTrip | components/AdminEditor.tsx:287-288 | The input shows stored tags joined by ", ", and typing that text back stores the same tags |
| AdminEditor.TagsTextAbsentOrField | components/AdminEditor.tsx:287 | Without a `coreBusiness` entry the input is empty; over a plain field the text cannot be built |
| AdminEditor.LeadSpace | components/AdminEditor.tsx:287 | The pieces after the first comma of a ", "-joined text: each tag with a leading space |
| AdminEditor.JoinComma | components/AdminEditor.tsx:287 | Joining with ", " is joining with "," after giving every tag but the first a leading space |
| AdminEditor.SpacedPiece | components/AdminEditor.tsx:287-288 | A comma-free tag with no outer whitespace stays comma-free with a leading space, and trims back to itself |
| AdminEditor.ParseTagsRoundTrip | components/AdminEditor.tsx:287-288 | Tags without commas or outer whitespace, shown joined by ", ", parse back to the same tags |
| AdminEditor.SpacedPieces | components/AdminEditor.tsx:287-288 | Splitting the joined text gives comma-free pieces that trim back to the tags |
| AdminEditor.ClearedTagsInput | components/AdminEditor.tsx:288 | A cleared tag input parses to one empty tag |
| AdminEditor.ClearedInputStillShown | components/AdminEditor.tsx:288 | After the tag input is cleared, the card still shows the tag block, holding one empty tag |
| AdminEditor.ConfigEditsKeepLayout | components/AdminEditor.tsx:177-210 | Each configuration edit keeps every key, section and order; it touches only its entry and only the one property it edits |
| AdminEditor.ToggleVisibilityTwice | components/AdminEditor.tsx:177-181 | Toggling an entry's visibility twice restores the configuration |
| AdminEditor.HiddenEntryLeavesSection | components/AdminEditor.tsx:177-181 | An entry just hidden is no longer listed in any section |
| AdminEditor.VisibilityToggled | components/AdminEditor.tsx:178-180 | Defines the eye button's configuration, as a value; `ConfigEditsKeepLayout` and `ToggleVisibilityTwice` state it |
| AdminEditor.RelabelledCN | components/AdminEditor.tsx:194-196 | Defines the Chinese relabelling, as a value; `ConfigEditsKeepLayout` states it |
| AdminEditor.RelabelledEN | components/AdminEditor.tsx:207-209 | Defines the English relabelling, as a value; `ConfigEditsKeepLayout` states it |
| AdminEditor.Editor.constructor | components/AdminEditor.tsx:9-12 | Nothing is being edited and the form is empty |
| AdminEditor.Editor.StartEdit | components/AdminEditor.tsx:14-17 | The form is a copy of the record and its id is the one being edited |
| AdminEditor.Editor.StartNew | components/AdminEditor.tsx:19-55 | The form is the blank record under a fresh `custom-` id, which is the one being edited |
| AdminEditor.Editor.HandleSave | components/AdminEditor.tsx:57-68 | With no (or an empty) id open nothing happens; otherwise the store holds the saved collection, persisted when the store was initialised, and the editor closes; the store's configuration, language, admin mode and initialisation are unchanged |
| AdminEditor.Editor.HandleDelete | components/AdminEditor.tsx:70-75 | When confirmed, the record is deleted and persisted, and the editor closes if it was open on that id; otherwise nothing changes; the store's configuration, language, admin mode and initialisation are unchanged |
| AdminEditor.Editor.Upload | components/AdminEditor.tsx:78-91 | A file over 500 KB raises an alert and changes nothing; a smaller file becomes the logo |
| AdminEditor.Editor.EditForm | components/AdminEditor.tsx:228-259 | A top-level form edit overwrites exactly the edited fields |
| AdminEditor.Editor.SetLatitude | components/AdminEditor.tsx:251 | Sets the latitude and keeps the longitude |
| AdminEditor.Editor.SetLongitude | components/AdminEditor.tsx:252 | Sets the longitude and keeps the latitude |
| AdminEditor.Editor.UpdateInfoField | components/AdminEditor.tsx:273-281 | The form's info becomes the info with that field's value set |
| AdminEditor.Editor.SetCoreBusiness | components/AdminEditor.tsx:285-289 | The form's core-business tags become the parsed, trimmed input |
| AdminEditor.Editor.Cancel | components/AdminEditor.tsx:294 | Closes the editor and keeps the form |
| AdminEditor.Editor.ToggleVisible | components/AdminEditor.tsx:177-181 | The store's configuration has that entry's visibility flipped, persisted when the store was initialised; members, language, admin mode and initialisation are unchanged |
| AdminEditor.Editor.SetLabelCN | components/AdminEditor.tsx:192-197 | The store's configuration has that entry's Chinese label replaced, persisted when the store was initialised; members, language, admin mode and initialisation are unchanged |
| AdminEditor.Editor.SetLabelEN | components/AdminEditor.tsx:205-210 | The store's configuration has that entry's English label replaced, persisted when the store was initialised; members, language, admin mode and initialisation are unchanged |
| MapView.ActiveAssociations | components/MapSystem.tsx:43-47 | The markers are a selection of the members, never more than there are |
| MapView.ActiveMembers | components/MapSystem.tsx:43-47 | A member has a marker exactly when it is an active association |
| MapView.ActiveConcat | components/MapSystem.tsx:43-47 | The markers keep the members' order |
| MapView.ActiveAll | components/MapSystem.tsx:43-47 | When every member is an active association, every member is drawn |
| MapView.ActiveIdsDistinct | components/MapSystem.tsx:43-47 | Distinct member ids give distinct marker ids |
| MapView.ToggleHidesMarker | components/MapSystem.tsx:43-47 | Toggling an active member keeps its record, now inactive, and takes its marker off the map |
| MapView.SeedMarkers | components/MapSystem.tsx:43-47 | The seed is drawn whole with distinct ids, BME included, and toggling `eu-5` hides BME |
| MapView.AffiliateColourDistinct | components/MapSystem.tsx:103-105 | Affiliates share one colour, which is never a member's region colour |
| MapView.MarkerColor | components/MapSystem.tsx:103-105 | Defines the marker colour; `AffiliateColourDistinct` states it |
| MapView.DashStyle | components/MapSystem.tsx:152 | Defines the ring's dash; `DashMarksAffiliates` states it |
| MapView.Tooltip | components/MapSystem.tsx:108-110 | Defines the tooltip text; `TooltipParts` states it |
| MapView.IsSelected | components/MapSystem.tsx:101 | Defines selection; `SelectedUnique` states it |
| MapView.DashMarksAffiliates | components/MapSystem.tsx:152 | Two rings have the same dash exactly when both markers are affiliates or both are members |
| MapView.TooltipParts | components/MapSystem.tsx:108-110 | The tooltip splits at its first bar into the abbreviation and the name in the current language |
| MapView.SelectedUnique | components/MapSystem.tsx:101 | With distinct ids at most one marker is selected, and none when nothing is selected |
| SharedConfig.ApplyEdit | components/AdminEditor.tsx:177-210 | An edit keeps the layout and every other entry |
| SharedConfig.Loaded | contexts/DataContext.tsx:44-46 | A saved configuration is fresh objects: the defaults are untouched and nothing is shared |
| SharedConfig.EditInPlace | components/AdminEditor.tsx:178-180 | The configuration in use gets the edit; while its entries are the default objects, the defaults get it too |
| SharedConfig.EditCopying | components/AdminEditor.tsx:178-180 | The configuration in use gets the edit and the defaults are untouched |
| SharedConfig.ResetAsWritten | contexts/DataContext.tsx:89-96 | A reset puts the default objects back in use, whatever they now contain |
| SharedConfig.EditsInPlace | components/AdminEditor.tsx:177-210 | Defines a run of in-place edits; `ResetAfterInPlaceEdits` states its effect on a reset |
| SharedConfig.EditsCopying | components/AdminEditor.tsx:177-210 | Defines a run of copying edits; `ResetAfterCopyingEdits` states its effect on a reset |
| SharedConfig.ResetAfterInPlaceEdits | contexts/DataContext.tsx:89-96 | As written: after any in-place edits from a shared start, the defaults equal the edited configuration and a reset changes nothing |
| SharedConfig.HideThenResetKeepsHidden | components/AdminEditor.tsx:178-180 | As written: hiding `yearEstablished` and resetting leaves it hidden, not the declared default |
| SharedConfig.ResetAfterCopyingEdits | contexts/DataContext.tsx:89-96 | As intended: after any copying edits the defaults are as declared and a reset restores them |

## Left out

- JSON text is not modelled. A stored collection is the value it serialises, so `JSON.parse(JSON.stringify(x))` is `x`. A saved value of the wrong kind stands in for text `JSON.parse` rejects, where the load throws and the model changes nothing (`Initialize` returns false). Well-formed JSON of the wrong shape (such as `{}`) is accepted by the source at load and breaks the page later, at the map's `members.filter`; the model does not capture that later failure. The loss of `undefined` and `NaN` in the deep copy of `startEdit` is not modelled.
- Seed: only the columns the core branches on are modelled (id, category, type, abbreviation, region, status). Names, coordinates, logos, websites, delegates, e-mails and info texts are left out as data the core never branches on.
- Floating point is left out. Coordinates are reals, and `parseFloat` of a non-numeric input (`NaN`) is not modelled.
- `Date.now()` is a parameter of `StartNew`. The `confirm` dialogs are a boolean parameter. The `alert` is the boolean result of `Upload`.
- AdminEditor.Editor.Upload: the `FileReader` is asynchronous. Its callback spreads the form as it was when the upload started, so edits made while the file loads are lost. The model applies the result at once.
- React effects and batched state updates are sequential steps. An effect whose dependency array changes identity is re-run; this is tracked only where it matters, through the two "still the seed/default array" flags of the reset.
- DataStore.Store.ResetToDefaults / DataStore.ReloadAfterReset: the store keeps configuration entries as values, so a reset restores the declared defaults. In the source, the entries edited in place are the objects of DEFAULT_FIELD_CONFIG, so a reset shows the edited entries and the effect persists them. Module `SharedConfig` models that sharing; see Findings.
- AdminEditor.InfoWith: spreading a tag list into `{ ...tags, value }` gives an object with numeric keys. It is modelled as a text field with the default status and no source.
- DetailCard.LoadedNote: a stored value under a note key that is not text is treated as absent.
- The favicon URL and the encoding of the website in it are not spelled out. Only the facts that it is non-empty and built from the website are kept.
- Map rendering is not modelled: projection, zoom, marker radii, the tooltip component, the legend and the info drawer. This also covers `App.tsx`, `components/InfoDrawer.tsx` and `components/Legend.tsx`, which are not part of this model.
- The admin panel's active tab, the card's accordion rendering, and every styling class are UI state with no data effect.
- DataStore.Store.Valid takes the seed and the default configuration as constructor arguments, fixed by its precondition, instead of naming the constants inside the class.
- MapView.ActiveAssociations: the contract bounds only the length. Membership and order are stated by the lemmas `MapView.ActiveMembers` and `MapView.ActiveConcat`.

## Findings

| source | as written | input that shows it | evidently intended | confidence | as-written member | corrected member |
|---|---|---|---|---|---|---|
| components/AdminEditor.tsx:178-180 | The edit copies the array but changes the entry object in place. While the configuration in use is DEFAULT_FIELD_CONFIG (at start-up, after a reset), the default entries change too, so a reset brings the edit back (the same holds for the label edits at 194-196 and 207-209) | Right after start-up with nothing saved, hide `yearEstablished`, then reset: it stays hidden | The edit replaces the entry with an edited copy; a reset restores the declared defaults, as the store model does | not executed | SharedConfig.HideThenResetKeepsHidden | SharedConfig.ResetAfterCopyingEdits |
