/**
 * The data model of the member directory: enumerations, profile fields,
 * member records and the field-display configuration (types.ts).
 */
module Types {

  datatype Option<+T> = None | Some(value: T)

  datatype Result<+T> = Success(value: T) | Failure(error: string)

  /** The four map regions; a member's region selects its marker colour. */
  datatype Region = Europe | AsiaPacific | Americas | Africa

  datatype MemberType = Member | Affiliate

  datatype MemberCategory = Association | Corporate

  /** `inactive` members are hidden from the map but kept in the collection. */
  datatype ActiveStatus = Active | Inactive

  datatype VerificationStatus = Auto | Pending | Confirmed

  datatype Language = Zh | En

  /** The card region a configured field is rendered in. */
  datatype Section = Basic | Background | Influence | Hidden

  /** A profile value with its verification status and an optional source note. */
  datatype Field = Field(value: string, status: VerificationStatus, source: Option<string>)

  /**
   * An entry of a member's info object: either a valued field or a list of
   * free-text tags (the source uses tag lists for `coreBusiness` and
   * `industryCoverage`).
   */
  datatype InfoEntry = Scalar(field: Field) | Tags(tags: seq<string>)

  /** The info object: string keys (the 13 named ones or any other) to entries. */
  type AssociationInfo = map<string, InfoEntry>

  /** Decimal degrees. */
  datatype Coordinates = Coordinates(lat: real, lng: real)

  datatype AssociationMember = AssociationMember(
    id: string,
    memberCategory: MemberCategory,
    memberType: MemberType,
    abbreviation: string,
    nameEN: string,
    nameCN: string,
    country: string,
    countryCN: string,
    region: Region,
    coordinates: Coordinates,
    logo: string,
    website: string,
    seniorDelegate: string,
    contactEmail: string,
    status: ActiveStatus,
    info: AssociationInfo,
    internalNotes: Option<string>)

  /**
   * `Partial<AssociationMember>`: every property may be absent. Spreading a
   * patch over a record overrides exactly the present properties.
   */
  datatype MemberPatch = MemberPatch(
    id: Option<string>,
    memberCategory: Option<MemberCategory>,
    memberType: Option<MemberType>,
    abbreviation: Option<string>,
    nameEN: Option<string>,
    nameCN: Option<string>,
    country: Option<string>,
    countryCN: Option<string>,
    region: Option<Region>,
    coordinates: Option<Coordinates>,
    logo: Option<string>,
    website: Option<string>,
    seniorDelegate: Option<string>,
    contactEmail: Option<string>,
    status: Option<ActiveStatus>,
    info: Option<AssociationInfo>,
    internalNotes: Option<string>)

  /** One entry of the field-display configuration. */
  datatype FieldConfig = FieldConfig(
    key: string,
    labelCN: string,
    labelEN: string,
    visible: bool,
    section: Section,
    order: int)

  /** The info keys the source declares as tag lists rather than fields. */
  const TagListKeys: set<string> := {"coreBusiness", "industryCoverage"}

  /** The info keys the source declares as valued fields. */
  const ScalarKeys: set<string> := {
    "yearEstablished", "legalStatus", "foundingBackground", "governmentAffiliation",
    "governance", "staffSize", "flagshipPrograms", "membershipScale", "influence",
    "internationalEngagement", "achievements"}

  /** The info object carries every declared key with the declared kind of entry. */
  ghost predicate WellFormedInfo(info: AssociationInfo) {
    && (forall k :: k in ScalarKeys ==> k in info && info[k].Scalar?)
    && (forall k :: k in TagListKeys ==> k in info && info[k].Tags?)
  }

  function Get<K, V>(m: map<K, V>, k: K): (r: Option<V>)
    ensures r.Some? <==> k in m
    ensures r.Some? ==> r.value == m[k]
  {
    if k in m then Some(m[k]) else None
  }

  /**
   * Writing a key makes it read back as the written value, deleting it makes
   * it read as absent, and neither changes what any other key reads.
   */
  lemma GetUpdate<K, V>(m: map<K, V>, k: K, v: V, other: K)
    requires other != k
    ensures Get(m[k := v], k) == Some(v) && Get(m - {k}, k) == None
    ensures Get(m[k := v], other) == Get(m, other) && Get(m - {k}, other) == Get(m, other)
  {
  }

  function OrElse<T>(o: Option<T>, d: T): T {
    match o
    case Some(v) => v
    case None => d
  }

  /** `{...m, ...p}` for a patch `p`: present properties override, the rest are kept. */
  function Merge(m: AssociationMember, p: MemberPatch): AssociationMember {
    AssociationMember(
      OrElse(p.id, m.id), OrElse(p.memberCategory, m.memberCategory),
      OrElse(p.memberType, m.memberType), OrElse(p.abbreviation, m.abbreviation),
      OrElse(p.nameEN, m.nameEN), OrElse(p.nameCN, m.nameCN),
      OrElse(p.country, m.country), OrElse(p.countryCN, m.countryCN),
      OrElse(p.region, m.region), OrElse(p.coordinates, m.coordinates),
      OrElse(p.logo, m.logo), OrElse(p.website, m.website),
      OrElse(p.seniorDelegate, m.seniorDelegate), OrElse(p.contactEmail, m.contactEmail),
      OrElse(p.status, m.status), OrElse(p.info, m.info),
      if p.internalNotes.Some? then p.internalNotes else m.internalNotes)
  }

  /** `{...p, ...q}` for two patches. */
  function MergePatch(p: MemberPatch, q: MemberPatch): MemberPatch {
    MemberPatch(
      if q.id.Some? then q.id else p.id,
      if q.memberCategory.Some? then q.memberCategory else p.memberCategory,
      if q.memberType.Some? then q.memberType else p.memberType,
      if q.abbreviation.Some? then q.abbreviation else p.abbreviation,
      if q.nameEN.Some? then q.nameEN else p.nameEN,
      if q.nameCN.Some? then q.nameCN else p.nameCN,
      if q.country.Some? then q.country else p.country,
      if q.countryCN.Some? then q.countryCN else p.countryCN,
      if q.region.Some? then q.region else p.region,
      if q.coordinates.Some? then q.coordinates else p.coordinates,
      if q.logo.Some? then q.logo else p.logo,
      if q.website.Some? then q.website else p.website,
      if q.seniorDelegate.Some? then q.seniorDelegate else p.seniorDelegate,
      if q.contactEmail.Some? then q.contactEmail else p.contactEmail,
      if q.status.Some? then q.status else p.status,
      if q.info.Some? then q.info else p.info,
      if q.internalNotes.Some? then q.internalNotes else p.internalNotes)
  }

  /** The empty patch `{}`. */
  const EmptyPatch: MemberPatch :=
    MemberPatch(None, None, None, None, None, None, None, None, None,
                None, None, None, None, None, None, None, None)

  /** The patch that carries every property of `m` (a deep copy of a record). */
  function ToPatch(m: AssociationMember): MemberPatch {
    MemberPatch(
      Some(m.id), Some(m.memberCategory), Some(m.memberType), Some(m.abbreviation),
      Some(m.nameEN), Some(m.nameCN), Some(m.country), Some(m.countryCN),
      Some(m.region), Some(m.coordinates), Some(m.logo), Some(m.website),
      Some(m.seniorDelegate), Some(m.contactEmail), Some(m.status), Some(m.info),
      m.internalNotes)
  }

  /** Every required property is present, so the patch can stand for a record. */
  predicate Complete(p: MemberPatch) {
    && p.id.Some? && p.memberCategory.Some? && p.memberType.Some?
    && p.abbreviation.Some? && p.nameEN.Some? && p.nameCN.Some?
    && p.country.Some? && p.countryCN.Some? && p.region.Some?
    && p.coordinates.Some? && p.logo.Some? && p.website.Some?
    && p.seniorDelegate.Some? && p.contactEmail.Some? && p.status.Some?
    && p.info.Some?
  }

  /** `formData as AssociationMember` for a complete patch. */
  function ToMember(p: MemberPatch): (m: AssociationMember)
    requires Complete(p)
    ensures ToPatch(m) == p
  {
    AssociationMember(
      p.id.value, p.memberCategory.value, p.memberType.value, p.abbreviation.value,
      p.nameEN.value, p.nameCN.value, p.country.value, p.countryCN.value,
      p.region.value, p.coordinates.value, p.logo.value, p.website.value,
      p.seniorDelegate.value, p.contactEmail.value, p.status.value, p.info.value,
      p.internalNotes)
  }

  /** A record copied into a patch and back is the same record. */
  lemma ToPatchRoundTrip(m: AssociationMember)
    ensures Complete(ToPatch(m)) && ToMember(ToPatch(m)) == m
  {
  }

  /**
   * Spreading a copy of `n` over any record yields `n`, except that a copy
   * without internal notes leaves the old record's notes in place (an
   * absent optional property does not override).
   */
  lemma MergeFullPatch(m: AssociationMember, n: AssociationMember)
    ensures Merge(m, ToPatch(n)) ==
      n.(internalNotes := if n.internalNotes.Some? then n.internalNotes else m.internalNotes)
  {
  }

  /** Spreading `{}` changes nothing. */
  lemma MergeEmptyPatch(m: AssociationMember)
    ensures Merge(m, EmptyPatch) == m
  {
  }

  /** Spreading the same patch twice is spreading it once. */
  lemma MergeIdempotent(m: AssociationMember, p: MemberPatch)
    ensures Merge(Merge(m, p), p) == Merge(m, p)
  {
  }

  /** Spreading two patches in turn is spreading their merge. */
  lemma MergeCompose(m: AssociationMember, p: MemberPatch, q: MemberPatch)
    ensures Merge(Merge(m, p), q) == Merge(m, MergePatch(p, q))
  {
  }
}
