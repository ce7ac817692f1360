/**
 * The member map's data rules (components/MapSystem.tsx): which members get
 * a marker, and each marker's colour, stroke dash, tooltip text and
 * selection state.
 */
module MapView {
  import opened Types
  import opened Constants
  import opened Seed
  import DataStore

  /** A member is drawn when it is active and an association. */
  predicate OnMap(m: AssociationMember) {
    m.status == Active && m.memberCategory == Association
  }

  /** `activeAssociations`: the members that get a marker. */
  function ActiveAssociations(ms: seq<AssociationMember>): (r: seq<AssociationMember>)
    ensures |r| <= |ms|
  {
    if ms == [] then []
    else
      var last := ms[|ms| - 1];
      ActiveAssociations(ms[..|ms| - 1]) + (if OnMap(last) then [last] else [])
  }

  /** The markers are exactly the drawable members. */
  lemma {:induction false} ActiveMembers(ms: seq<AssociationMember>)
    ensures forall m :: m in ActiveAssociations(ms) <==> m in ms && OnMap(m)
  {
    if ms != [] {
      var init, last := ms[..|ms| - 1], ms[|ms| - 1];
      ActiveMembers(init);
      assert ms == init + [last];
    }
  }

  /** Filtering distributes over concatenation: markers keep the members' order. */
  lemma {:induction false} ActiveConcat(a: seq<AssociationMember>, b: seq<AssociationMember>)
    ensures ActiveAssociations(a + b) == ActiveAssociations(a) + ActiveAssociations(b)
  {
    if b == [] {
      assert a + b == a;
    } else {
      var init, last := b[..|b| - 1], b[|b| - 1];
      ActiveConcat(a, init);
      assert (a + b)[..|a + b| - 1] == a + init;
    }
  }

  /** A collection of drawable members is drawn whole. */
  lemma {:induction false} ActiveAll(ms: seq<AssociationMember>)
    requires forall i :: 0 <= i < |ms| ==> OnMap(ms[i])
    ensures ActiveAssociations(ms) == ms
  {
    if ms != [] {
      var init, last := ms[..|ms| - 1], ms[|ms| - 1];
      ActiveAll(init);
      assert OnMap(last);
      assert ms == init + [last];
    }
  }

  predicate IdsDistinct(ms: seq<AssociationMember>) {
    forall i, j :: 0 <= i < j < |ms| ==> ms[i].id != ms[j].id
  }

  /** Distinct ids stay distinct among the markers. */
  lemma {:induction false} ActiveIdsDistinct(ms: seq<AssociationMember>)
    requires IdsDistinct(ms)
    ensures IdsDistinct(ActiveAssociations(ms))
  {
    if ms != [] {
      var init, last := ms[..|ms| - 1], ms[|ms| - 1];
      ActiveIdsDistinct(init);
      ActiveMembers(init);
      var r := ActiveAssociations(init);
      forall i | 0 <= i < |r|
        ensures r[i].id != last.id
      {
        assert r[i] in init;
        var j :| 0 <= j < |init| && init[j] == r[i];
        assert ms[j] == r[i];
      }
    }
  }

  /**
   * Toggling a member whose records are all active takes its marker off the
   * map, while the collection keeps every record, now inactive.
   */
  lemma ToggleHidesMarker(ms: seq<AssociationMember>, id: string)
    requires forall i :: 0 <= i < |ms| && ms[i].id == id ==> ms[i].status == Active
    ensures var t := DataStore.Toggled(ms, id);
      && |t| == |ms|
      && (forall i :: 0 <= i < |ms| && ms[i].id == id ==> t[i] == ms[i].(status := Inactive))
      && (forall m :: m in ActiveAssociations(t) ==> m.id != id)
  {
    var t := DataStore.Toggled(ms, id);
    ActiveMembers(t);
    forall m | m in ActiveAssociations(t)
      ensures m.id != id
    {
      var i :| 0 <= i < |t| && t[i] == m;
    }
  }

  /**
   * The seed collection is drawn whole, one marker per record with no two
   * sharing an id, and BME (`eu-5`) is on the map until toggled off.
   */
  lemma SeedMarkers(ms: seq<AssociationMember>)
    requires IsSeed(ms)
    ensures ActiveAssociations(ms) == ms && IdsDistinct(ms)
    ensures ms[4] in ActiveAssociations(ms) && ms[4].abbreviation == "BME"
    ensures forall m :: m in ActiveAssociations(DataStore.Toggled(ms, "eu-5")) ==> m.id != "eu-5"
    ensures |DataStore.Toggled(ms, "eu-5")| == |ms|
  {
    SeedFacts(ms);
    ActiveAll(ms);
    assert ms[4] in ms;
    ToggleHidesMarker(ms, "eu-5");
  }

  /** `markerColor`: the affiliate fill, or the member's region fill. */
  function MarkerColor(m: AssociationMember): string {
    if m.memberType == Affiliate then AffiliateStyle.fill else RegionColors(m.region).fill
  }

  /**
   * Affiliates share one colour whatever their region, and it is never a
   * region colour, so an affiliate marker is never confused with a member's.
   */
  lemma AffiliateColourDistinct(a: AssociationMember, m: AssociationMember)
    requires a.memberType == Affiliate && m.memberType == Member
    ensures MarkerColor(a) == AffiliateStyle.fill
    ensures MarkerColor(a) != MarkerColor(m)
    ensures a.region != m.region ==> MarkerColor(m) != RegionColors(a.region).fill
  {
    if a.region != m.region {
      RegionColorsDistinct(a.region, m.region);
    }
  }

  /** The ring's `strokeDasharray`: dashed for affiliates, solid otherwise. */
  function DashStyle(m: AssociationMember): string {
    if m.memberType == Affiliate then "2,2" else "0"
  }

  /** The dash and the colour agree on which markers are affiliates. */
  lemma DashMarksAffiliates(m: AssociationMember, n: AssociationMember)
    ensures DashStyle(m) == DashStyle(n) <==> m.memberType == n.memberType
    ensures m.memberType == Affiliate ==> MarkerColor(m) == AffiliateStyle.fill
  {
  }

  /** The full-width vertical bar between abbreviation and name. */
  const Bar: char := '\U{FF5C}'

  /** `tooltipContent`: abbreviation, bar, then the name in the current language. */
  function Tooltip(m: AssociationMember, lang: Language): string {
    m.abbreviation + [Bar] + (if lang == Zh then m.nameCN else m.nameEN)
  }

  /**
   * When the abbreviation has no bar, the tooltip splits back at its first
   * bar into the abbreviation and the language's name.
   */
  lemma TooltipParts(m: AssociationMember, lang: Language)
    requires Bar !in m.abbreviation
    ensures var t, n := Tooltip(m, lang), |m.abbreviation|;
      && Bar in t && t[n] == Bar && Bar !in t[..n]
      && t[..n] == m.abbreviation
      && t[n + 1..] == (if lang == Zh then m.nameCN else m.nameEN)
  {
    var t, n := Tooltip(m, lang), |m.abbreviation|;
    assert t[..n] == m.abbreviation;
    assert t[n] == Bar;
  }

  /** `isSelected`: the marker's id is the selected id. */
  function IsSelected(m: AssociationMember, selectedId: Option<string>): bool {
    selectedId == Some(m.id)
  }

  /** With distinct ids at most one marker is selected, and none when nothing is. */
  lemma SelectedUnique(ms: seq<AssociationMember>, selectedId: Option<string>)
    requires IdsDistinct(ms)
    ensures var r := ActiveAssociations(ms);
      && (forall i, j :: 0 <= i < |r| && 0 <= j < |r| && IsSelected(r[i], selectedId) && IsSelected(r[j], selectedId) ==> i == j)
      && (selectedId.None? ==> forall i :: 0 <= i < |r| ==> !IsSelected(r[i], selectedId))
  {
    ActiveIdsDistinct(ms);
  }
}
