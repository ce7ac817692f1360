/**
 * The member directory store (contexts/DataContext.tsx): the member
 * collection, the field configuration, the language and admin flags, the
 * one-time load from storage and the persistence that follows every change.
 *
 * Each update is a pure function of the previous collection (append, `map`,
 * `filter`, spread), defined first with its properties; the `Store` class
 * then applies them to its fields and persists the result.
 */
module DataStore {
  import opened Types
  import opened Constants
  import opened Seed
  import opened Storage

  const MembersKey: string := "ifpsm_members_v3"
  const ConfigKey: string := "ifpsm_field_config_v3"

  lemma KeysDistinct()
    ensures MembersKey != ConfigKey
  {
  }

  // ---------------------------------------------------------------------
  // The collection updates
  // ---------------------------------------------------------------------

  /** `[...prev, member]`: no check that the id is new. */
  function Appended(ms: seq<AssociationMember>, m: AssociationMember): (r: seq<AssociationMember>)
    ensures |r| == |ms| + 1 && r[..|ms|] == ms && r[|ms|] == m
  {
    ms + [m]
  }

  /** `prev.map(m => m.id === id ? { ...m, ...updates } : m)`. */
  function Updated(ms: seq<AssociationMember>, id: string, u: MemberPatch): (r: seq<AssociationMember>)
    ensures |r| == |ms|
    ensures forall i :: 0 <= i < |ms| ==>
      r[i] == (if ms[i].id == id then Merge(ms[i], u) else ms[i])
  {
    if ms == [] then []
    else [if ms[0].id == id then Merge(ms[0], u) else ms[0]] + Updated(ms[1..], id, u)
  }

  /** `prev.filter(m => m.id !== id)`. */
  function Removed(ms: seq<AssociationMember>, id: string): (r: seq<AssociationMember>)
    ensures |r| <= |ms|
    ensures forall m :: m in r <==> m in ms && m.id != id
  {
    if ms == [] then []
    else (if ms[0].id != id then [ms[0]] else []) + Removed(ms[1..], id)
  }

  function Flip(s: ActiveStatus): ActiveStatus {
    if s == Active then Inactive else Active
  }

  /** `prev.map(m => m.id === id ? { ...m, status: <flipped> } : m)`. */
  function Toggled(ms: seq<AssociationMember>, id: string): (r: seq<AssociationMember>)
    ensures |r| == |ms|
    ensures forall i :: 0 <= i < |ms| ==>
      r[i] == (if ms[i].id == id then ms[i].(status := Flip(ms[i].status)) else ms[i])
  {
    if ms == [] then []
    else [if ms[0].id == id then ms[0].(status := Flip(ms[0].status)) else ms[0]] + Toggled(ms[1..], id)
  }

  function OtherLanguage(l: Language): Language {
    if l == Zh then En else Zh
  }

  /** An update for an id no record has leaves the collection as it is. */
  lemma UpdateAbsent(ms: seq<AssociationMember>, id: string, u: MemberPatch)
    requires forall i :: 0 <= i < |ms| ==> ms[i].id != id
    ensures Updated(ms, id, u) == ms
  {
  }

  /** Applying the same update twice is applying it once. */
  lemma UpdateIdempotent(ms: seq<AssociationMember>, id: string, u: MemberPatch)
    ensures Updated(Updated(ms, id, u), id, u) == Updated(ms, id, u)
  {
    var once := Updated(ms, id, u);
    forall i | 0 <= i < |ms|
      ensures Updated(once, id, u)[i] == once[i]
    {
      if ms[i].id == id {
        MergeIdempotent(ms[i], u);
      }
    }
  }

  /** Removing distributes over concatenation: the kept records keep their order. */
  lemma {:induction false} RemovedConcat(a: seq<AssociationMember>, b: seq<AssociationMember>, id: string)
    ensures Removed(a + b, id) == Removed(a, id) + Removed(b, id)
  {
    if a == [] {
      assert a + b == b;
    } else {
      assert (a + b)[0] == a[0];
      assert (a + b)[1..] == a[1..] + b;
      RemovedConcat(a[1..], b, id);
    }
  }

  /** Removing twice is removing once. */
  lemma {:induction false} RemoveIdempotent(ms: seq<AssociationMember>, id: string)
    ensures Removed(Removed(ms, id), id) == Removed(ms, id)
  {
    if ms != [] {
      RemoveIdempotent(ms[1..], id);
      var head := if ms[0].id != id then [ms[0]] else [];
      RemovedConcat(head, Removed(ms[1..], id), id);
    }
  }

  /** Removing an id that no record has changes nothing. */
  lemma {:induction false} RemoveAbsent(ms: seq<AssociationMember>, id: string)
    requires forall i :: 0 <= i < |ms| ==> ms[i].id != id
    ensures Removed(ms, id) == ms
  {
    if ms != [] {
      RemoveAbsent(ms[1..], id);
    }
  }

  /** Deleting the id of a member just added is deleting it from the old collection. */
  lemma RemoveAppended(ms: seq<AssociationMember>, m: AssociationMember)
    ensures Removed(Appended(ms, m), m.id) == Removed(ms, m.id)
  {
    RemovedConcat(ms, [m], m.id);
  }

  /** Toggling the same id twice restores the collection. */
  lemma ToggleInvolution(ms: seq<AssociationMember>, id: string)
    ensures Toggled(Toggled(ms, id), id) == ms
  {
    var once := Toggled(ms, id);
    forall i | 0 <= i < |ms|
      ensures Toggled(once, id)[i] == ms[i]
    {
    }
  }

  /** A toggle changes nothing but the status, and keeps every id in place. */
  lemma ToggleOnlyStatus(ms: seq<AssociationMember>, id: string)
    ensures forall i :: 0 <= i < |ms| ==> Toggled(ms, id)[i].(status := ms[i].status) == ms[i]
    ensures forall i :: 0 <= i < |ms| ==>
      (Toggled(ms, id)[i].status != ms[i].status <==> ms[i].id == id)
  {
  }

  /** The language switch is its own inverse and always changes the language. */
  lemma OtherLanguageInvolution(l: Language)
    ensures OtherLanguage(OtherLanguage(l)) == l && OtherLanguage(l) != l
  {
  }

  /**
   * The language switch relabels every region and a second switch restores
   * the labels; from Chinese, Europe goes from 欧洲 to Europe.
   */
  lemma ToggleRelabelsRegions(l: Language, r: Region)
    ensures RegionLabel(OtherLanguage(l), r) != RegionLabel(l, r)
    ensures RegionLabel(OtherLanguage(OtherLanguage(l)), r) == RegionLabel(l, r)
    ensures RegionLabel(Zh, Europe) == "欧洲" && RegionLabel(OtherLanguage(Zh), Europe) == "Europe"
  {
  }

  // ---------------------------------------------------------------------
  // Loading and persistence
  // ---------------------------------------------------------------------

  /** The state a page load arrives at: the members and the configuration shown. */
  datatype Snapshot = Snapshot(members: seq<AssociationMember>, config: seq<FieldConfig>)

  /**
   * The members the init effect sets: the saved collection when one is
   * saved, otherwise the seed. A saved value that is not a member list is
   * where `JSON.parse` would fail or give a value of the wrong shape.
   */
  function LoadMembers(items: map<string, Stored>, seed: seq<AssociationMember>): Result<seq<AssociationMember>> {
    match Saved(items, MembersKey)
    case None => Success(seed)
    case Some(MembersJson(ms)) => Success(ms)
    case Some(_) => Failure("the saved members are not a member list")
  }

  /** The configuration after the init effect: the saved one, otherwise `current`. */
  function LoadConfig(items: map<string, Stored>, current: seq<FieldConfig>): Result<seq<FieldConfig>> {
    match Saved(items, ConfigKey)
    case None => Success(current)
    case Some(ConfigJson(c)) => Success(c)
    case Some(_) => Failure("the saved configuration is not a configuration list")
  }

  /** What a fresh page load shows: the configuration starts as the default. */
  function Reload(items: map<string, Stored>, seed: seq<AssociationMember>, defaults: seq<FieldConfig>): Result<Snapshot> {
    match (LoadMembers(items, seed), LoadConfig(items, defaults))
    case (Success(ms), Success(c)) => Success(Snapshot(ms, c))
    case (Failure(e), _) => Failure(e)
    case (_, Failure(e)) => Failure(e)
  }

  /** With nothing saved, a page load shows the seed with the default configuration. */
  lemma ReloadEmpty(seed: seq<AssociationMember>, defaults: seq<FieldConfig>)
    ensures Reload(map[], seed, defaults) == Success(Snapshot(seed, defaults))
  {
  }

  /** Both collections written under their keys are what the next page load shows. */
  lemma ReloadPersisted(items: map<string, Stored>, seed: seq<AssociationMember>, defaults: seq<FieldConfig>,
                        ms: seq<AssociationMember>, c: seq<FieldConfig>)
    ensures Reload(items[MembersKey := MembersJson(ms)][ConfigKey := ConfigJson(c)], seed, defaults)
      == Success(Snapshot(ms, c))
  {
    KeysDistinct();
  }

  /** Rewriting the members key changes only the members a page load shows. */
  lemma ReloadMembersWritten(items: map<string, Stored>, seed: seq<AssociationMember>, defaults: seq<FieldConfig>,
                             ms: seq<AssociationMember>)
    requires Reload(items, seed, defaults).Success?
    ensures Reload(items[MembersKey := MembersJson(ms)], seed, defaults)
      == Success(Reload(items, seed, defaults).value.(members := ms))
  {
    KeysDistinct();
  }

  /** Rewriting the configuration key changes only the configuration a page load shows. */
  lemma ReloadConfigWritten(items: map<string, Stored>, seed: seq<AssociationMember>, defaults: seq<FieldConfig>,
                            c: seq<FieldConfig>)
    requires Reload(items, seed, defaults).Success?
    ensures Reload(items[ConfigKey := ConfigJson(c)], seed, defaults)
      == Success(Reload(items, seed, defaults).value.(config := c))
  {
    KeysDistinct();
  }

  /** Storing under any other key changes nothing a page load shows. */
  lemma ReloadOtherKey(items: map<string, Stored>, seed: seq<AssociationMember>, defaults: seq<FieldConfig>,
                       key: string, v: Stored)
    requires key != MembersKey && key != ConfigKey
    ensures Reload(items[key := v], seed, defaults) == Reload(items, seed, defaults)
  {
  }

  /** The storage after a change of the members: written only once initialised. */
  function MembersWritten(items: map<string, Stored>, initialized: bool,
                          ms: seq<AssociationMember>): map<string, Stored> {
    if initialized then items[MembersKey := MembersJson(ms)] else items
  }

  /** The storage after a change of the configuration: written only once initialised. */
  function ConfigWritten(items: map<string, Stored>, initialized: bool,
                         c: seq<FieldConfig>): map<string, Stored> {
    if initialized then items[ConfigKey := ConfigJson(c)] else items
  }

  /**
   * The storage after a confirmed reset: both keys removed, then a key
   * written again by its persistence effect only when the collection really
   * changed, that is, when it was not already the seed (or default) array.
   */
  function ResetStorage(items: map<string, Stored>, initialized: bool,
                        seed: seq<AssociationMember>, defaults: seq<FieldConfig>,
                        membersWereSeed: bool, configWasDefault: bool): (r: map<string, Stored>)
    ensures MembersKey in r <==> initialized && !membersWereSeed
    ensures ConfigKey in r <==> initialized && !configWasDefault
    ensures forall k :: k != MembersKey && k != ConfigKey ==> (k in r <==> k in items)
  {
    var cleared := items - {MembersKey, ConfigKey};
    var m := MembersWritten(cleared, initialized && !membersWereSeed, seed);
    ConfigWritten(m, initialized && !configWasDefault, defaults)
  }

  /** After a reset, a page load shows the seed and the default configuration. */
  lemma ReloadAfterReset(items: map<string, Stored>, initialized: bool,
                         seed: seq<AssociationMember>, defaults: seq<FieldConfig>,
                         membersWereSeed: bool, configWasDefault: bool)
    ensures Reload(ResetStorage(items, initialized, seed, defaults, membersWereSeed, configWasDefault),
                   seed, defaults)
      == Success(Snapshot(seed, defaults))
  {
    KeysDistinct();
  }

  // ---------------------------------------------------------------------
  // The store
  // ---------------------------------------------------------------------

  /**
   * `DataProvider`. `seed` is MEMBERS_DATA and `defaults` is
   * DEFAULT_FIELD_CONFIG; the two flags record whether the
   * collections are still the very seed and default arrays, which decides
   * whether a reset re-triggers their persistence effects (React compares
   * effect dependencies by identity).
   */
  class Store {
    var members: seq<AssociationMember>
    var fieldConfig: seq<FieldConfig>
    var isAdminMode: bool
    var language: Language
    var isInitialized: bool
    var membersIsSeedArray: bool
    var configIsDefaultArray: bool
    const seed: seq<AssociationMember>
    const defaults: seq<FieldConfig>
    const storage: LocalStorage

    /** Once initialised, storage holds what is shown: a page load would show it again. */
    ghost predicate Valid()
      reads this, storage
    {
      && (membersIsSeedArray ==> members == seed)
      && (configIsDefaultArray ==> fieldConfig == defaults)
      && (isInitialized ==> Reload(storage.items, seed, defaults) == Success(Snapshot(members, fieldConfig)))
    }

    /** The initial state: no members yet, the default configuration, Chinese, not admin. */
    constructor (seed: seq<AssociationMember>, defaults: seq<FieldConfig>, storage: LocalStorage)
      requires IsSeed(seed) && defaults == DefaultFieldConfig
      ensures Valid()
      ensures this.seed == seed && this.defaults == defaults && this.storage == storage
      ensures members == [] && fieldConfig == defaults
      ensures !isAdminMode && language == Zh && !isInitialized
      ensures !membersIsSeedArray && configIsDefaultArray
    {
      this.seed := seed;
      this.defaults := defaults;
      this.storage := storage;
      members := [];
      fieldConfig := defaults;
      isAdminMode := false;
      language := Zh;
      isInitialized := false;
      membersIsSeedArray := false;
      configIsDefaultArray := true;
    }

    /** The members persistence effect. */
    method PersistMembers()
      modifies storage
      ensures storage.items == MembersWritten(old(storage.items), isInitialized, members)
    {
      if isInitialized {
        storage.SetItem(MembersKey, MembersJson(members));
      }
    }

    /** The configuration persistence effect. */
    method PersistConfig()
      modifies storage
      ensures storage.items == ConfigWritten(old(storage.items), isInitialized, fieldConfig)
    {
      if isInitialized {
        storage.SetItem(ConfigKey, ConfigJson(fieldConfig));
      }
    }

    /**
     * The mount effect: load both collections, mark the store initialised,
     * then both persistence effects run. A saved value of the wrong kind
     * stands for text `JSON.parse` rejects, where the effect throws before
     * any state is set: the model then changes nothing (`ok` is false).
     */
    method Initialize() returns (ok: bool)
      requires Valid() && !isInitialized
      modifies this, storage
      ensures Valid()
      ensures var lm, lc := LoadMembers(old(storage.items), seed), LoadConfig(old(storage.items), old(fieldConfig));
        && (ok <==> lm.Success? && lc.Success?)
        && (ok ==> members == lm.value && fieldConfig == lc.value && isInitialized)
      ensures ok ==> (storage.items ==
        old(storage.items)[MembersKey := MembersJson(members)][ConfigKey := ConfigJson(fieldConfig)])
      ensures !ok ==> unchanged(this) && unchanged(storage)
      ensures ok ==> membersIsSeedArray == Saved(old(storage.items), MembersKey).None?
      ensures ok ==> configIsDefaultArray == (old(configIsDefaultArray) && Saved(old(storage.items), ConfigKey).None?)
      ensures language == old(language) && isAdminMode == old(isAdminMode)
    {
      var lm := LoadMembers(storage.items, seed);
      var lc := LoadConfig(storage.items, fieldConfig);
      if lm.Failure? || lc.Failure? {
        return false;
      }
      membersIsSeedArray := Saved(storage.items, MembersKey).None?;
      configIsDefaultArray := configIsDefaultArray && Saved(storage.items, ConfigKey).None?;
      members := lm.value;
      fieldConfig := lc.value;
      isInitialized := true;
      PersistMembers();
      PersistConfig();
      ReloadPersisted(old(storage.items), seed, defaults, members, fieldConfig);
      ok := true;
    }

    /** Replace the members by `ms` (a new array) and run their persistence effect. */
    method SetMembers(ms: seq<AssociationMember>)
      requires Valid()
      modifies this, storage
      ensures Valid()
      ensures members == ms && !membersIsSeedArray
      ensures storage.items == MembersWritten(old(storage.items), isInitialized, ms)
      ensures fieldConfig == old(fieldConfig) && configIsDefaultArray == old(configIsDefaultArray)
      ensures language == old(language) && isAdminMode == old(isAdminMode)
      ensures isInitialized == old(isInitialized)
    {
      members := ms;
      membersIsSeedArray := false;
      PersistMembers();
      if isInitialized {
        ReloadMembersWritten(old(storage.items), seed, defaults, ms);
      }
    }

    method AddMember(m: AssociationMember)
      requires Valid()
      modifies this, storage
      ensures Valid()
      ensures members == Appended(old(members), m)
      ensures storage.items == MembersWritten(old(storage.items), isInitialized, members)
      ensures fieldConfig == old(fieldConfig) && language == old(language)
      ensures isAdminMode == old(isAdminMode) && isInitialized == old(isInitialized)
      ensures !membersIsSeedArray && configIsDefaultArray == old(configIsDefaultArray)
    {
      SetMembers(Appended(members, m));
    }

    method UpdateMember(id: string, u: MemberPatch)
      requires Valid()
      modifies this, storage
      ensures Valid()
      ensures members == Updated(old(members), id, u)
      ensures storage.items == MembersWritten(old(storage.items), isInitialized, members)
      ensures fieldConfig == old(fieldConfig) && language == old(language)
      ensures isAdminMode == old(isAdminMode) && isInitialized == old(isInitialized)
      ensures !membersIsSeedArray && configIsDefaultArray == old(configIsDefaultArray)
    {
      SetMembers(Updated(members, id, u));
    }

    method DeleteMember(id: string)
      requires Valid()
      modifies this, storage
      ensures Valid()
      ensures members == Removed(old(members), id)
      ensures storage.items == MembersWritten(old(storage.items), isInitialized, members)
      ensures fieldConfig == old(fieldConfig) && language == old(language)
      ensures isAdminMode == old(isAdminMode) && isInitialized == old(isInitialized)
      ensures !membersIsSeedArray && configIsDefaultArray == old(configIsDefaultArray)
    {
      SetMembers(Removed(members, id));
    }

    method ToggleMemberStatus(id: string)
      requires Valid()
      modifies this, storage
      ensures Valid()
      ensures members == Toggled(old(members), id)
      ensures storage.items == MembersWritten(old(storage.items), isInitialized, members)
      ensures fieldConfig == old(fieldConfig) && language == old(language)
      ensures isAdminMode == old(isAdminMode) && isInitialized == old(isInitialized)
      ensures !membersIsSeedArray && configIsDefaultArray == old(configIsDefaultArray)
    {
      SetMembers(Toggled(members, id));
    }

    /** `updateFieldConfig(newConfig)`; its one caller passes a fresh copy of the array. */
    method UpdateFieldConfig(newConfig: seq<FieldConfig>)
      requires Valid()
      modifies this, storage
      ensures Valid()
      ensures fieldConfig == newConfig && !configIsDefaultArray
      ensures storage.items == ConfigWritten(old(storage.items), isInitialized, newConfig)
      ensures members == old(members) && membersIsSeedArray == old(membersIsSeedArray)
      ensures language == old(language) && isAdminMode == old(isAdminMode)
      ensures isInitialized == old(isInitialized)
    {
      fieldConfig := newConfig;
      configIsDefaultArray := false;
      PersistConfig();
      if isInitialized {
        ReloadConfigWritten(old(storage.items), seed, defaults, newConfig);
      }
    }

    method ToggleLanguage()
      requires Valid()
      modifies this
      ensures Valid()
      ensures language == OtherLanguage(old(language))
      ensures members == old(members) && fieldConfig == old(fieldConfig)
      ensures isAdminMode == old(isAdminMode) && isInitialized == old(isInitialized)
      ensures membersIsSeedArray == old(membersIsSeedArray)
      ensures configIsDefaultArray == old(configIsDefaultArray)
      ensures forall r :: RegionLabel(language, r) != RegionLabel(old(language), r)
    {
      language := OtherLanguage(language);
      forall r
        ensures RegionLabel(language, r) != RegionLabel(old(language), r)
      {
        ToggleRelabelsRegions(old(language), r);
      }
    }

    method ToggleAdminMode()
      requires Valid()
      modifies this
      ensures Valid()
      ensures isAdminMode == !old(isAdminMode)
      ensures members == old(members) && fieldConfig == old(fieldConfig)
      ensures language == old(language) && isInitialized == old(isInitialized)
      ensures membersIsSeedArray == old(membersIsSeedArray)
      ensures configIsDefaultArray == old(configIsDefaultArray)
    {
      isAdminMode := !isAdminMode;
    }

    /**
     * `resetToDefaults`, with the answer to its confirmation dialog: the seed
     * and the default configuration, both keys removed; a persistence effect
     * then rewrites a key only if its collection was not already the seed or
     * default array.
     */
    method ResetToDefaults(confirmed: bool)
      requires Valid()
      modifies this, storage
      ensures Valid()
      ensures !confirmed ==> unchanged(this) && unchanged(storage)
      ensures confirmed ==> members == seed && fieldConfig == defaults
      ensures confirmed ==> membersIsSeedArray && configIsDefaultArray
      ensures confirmed ==> storage.items == ResetStorage(old(storage.items), isInitialized, seed, defaults,
                                                        old(membersIsSeedArray), old(configIsDefaultArray))
      ensures language == old(language) && isAdminMode == old(isAdminMode)
      ensures isInitialized == old(isInitialized)
    {
      if confirmed {
        var membersChanged, configChanged := !membersIsSeedArray, !configIsDefaultArray;
        members := seed;
        fieldConfig := defaults;
        membersIsSeedArray := true;
        configIsDefaultArray := true;
        storage.RemoveItem(MembersKey);
        storage.RemoveItem(ConfigKey);
        assert storage.items == old(storage.items) - {MembersKey, ConfigKey};
        if membersChanged {
          PersistMembers();
        }
        if configChanged {
          PersistConfig();
        }
        ReloadAfterReset(old(storage.items), isInitialized, seed, defaults, !membersChanged, !configChanged);
      }
    }
  }
}
