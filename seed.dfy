/**
 * The bundled seed dataset MEMBERS_DATA (constants.ts:103-352), by the
 * columns the store, the map and the editor branch on: id, category,
 * member type, abbreviation, region and status of each of the 40 records,
 * in source order.
 */
module Seed {
  import opened Types
  import opened Strings

  /** The region prefix of a seed id. */
  datatype IdPrefix = Eu | Ap | Am | Af | AffEu

  function PrefixText(p: IdPrefix): string {
    match p
    case Eu => "eu"
    case Ap => "ap"
    case Am => "am"
    case Af => "af"
    case AffEu => "aff-eu"
  }

  /**
   * One record of MEMBERS_DATA; its id `eu-5` is written as the prefix
   * `Eu` and the running number 5.
   */
  datatype SeedRow = SeedRow(
    prefix: IdPrefix,
    number: nat,
    memberCategory: MemberCategory,
    memberType: MemberType,
    abbreviation: string,
    region: Region,
    status: ActiveStatus)

  /** The id of a seed record, `<prefix>-<number>`. */
  function RowId(r: SeedRow): string {
    PrefixText(r.prefix) + "-" + DecimalString(r.number)
  }

  /** MEMBERS_DATA, one row per record. */
  const SeedRows: seq<SeedRow> := [
    SeedRow(Eu, 1, Association, Member, "ABCAL", Europe, Active),
    SeedRow(Eu, 2, Association, Member, "ADACI", Europe, Active),
    SeedRow(Eu, 3, Association, Member, "AERCE", Europe, Active),
    SeedRow(Eu, 4, Association, Member, "APCADEC", Europe, Active),
    SeedRow(Eu, 5, Association, Member, "BME", Europe, Active),
    SeedRow(Eu, 6, Association, Member, "BMÖ", Europe, Active),
    SeedRow(Eu, 7, Association, Member, "CAP (HUND)", Europe, Active),
    SeedRow(Eu, 8, Association, Member, "CNA", Europe, Active),
    SeedRow(Eu, 9, Association, Member, "FZUP", Europe, Active),
    SeedRow(Eu, 10, Association, Member, "HALPIM", Europe, Active),
    SeedRow(Eu, 11, Association, Member, "HPI", Europe, Active),
    SeedRow(Eu, 12, Association, Member, "IPLMA", Europe, Active),
    SeedRow(Eu, 13, Association, Member, "LOGY", Europe, Active),
    SeedRow(Eu, 14, Association, Member, "NEVI", Europe, Active),
    SeedRow(Eu, 15, Association, Member, "PROCURE.CH", Europe, Active),
    SeedRow(Eu, 16, Association, Member, "PROLOG", Europe, Active),
    SeedRow(Eu, 17, Association, Member, "PSML", Europe, Active),
    SeedRow(Eu, 18, Association, Member, "SILF", Europe, Active),
    SeedRow(Eu, 19, Association, Member, "Tusayder", Europe, Active),
    SeedRow(Eu, 20, Association, Member, "TÜSMOD", Europe, Active),
    SeedRow(Eu, 21, Association, Member, "ZNS", Europe, Active),
    SeedRow(Ap, 1, Association, Member, "CFLP", AsiaPacific, Active),
    SeedRow(Ap, 2, Association, Member, "IAPI", AsiaPacific, Active),
    SeedRow(Ap, 3, Association, Member, "IIMM", AsiaPacific, Active),
    SeedRow(Ap, 4, Association, Member, "IPSHK", AsiaPacific, Active),
    SeedRow(Ap, 5, Association, Member, "ISMM", AsiaPacific, Active),
    SeedRow(Ap, 6, Association, Member, "MIPMM", AsiaPacific, Active),
    SeedRow(Ap, 7, Association, Member, "PASIA", AsiaPacific, Active),
    SeedRow(Ap, 8, Association, Member, "PISM", AsiaPacific, Active),
    SeedRow(Ap, 9, Association, Member, "PSCMT", AsiaPacific, Active),
    SeedRow(Ap, 10, Association, Member, "TASS", AsiaPacific, Active),
    SeedRow(Am, 1, Association, Member, "APROCAL", Americas, Active),
    SeedRow(Am, 2, Association, Member, "CBEC", Americas, Active),
    SeedRow(Am, 3, Association, Member, "SCC", Americas, Active),
    SeedRow(Af, 1, Association, Member, "AMCA", Africa, Active),
    SeedRow(Af, 2, Association, Member, "CIPSMN", Africa, Active),
    SeedRow(Af, 3, Association, Member, "CISCM", Africa, Active),
    SeedRow(Af, 4, Association, Member, "IPPU", Africa, Active),
    SeedRow(Af, 5, Association, Affiliate, "PSPTB", Africa, Active),
    SeedRow(AffEu, 1, Association, Affiliate, "EIPM", Europe, Active)]

  /** Record `m` carries the columns of row `r`. */
  predicate Carries(m: AssociationMember, r: SeedRow) {
    && m.id == RowId(r) && m.memberCategory == r.memberCategory
    && m.memberType == r.memberType && m.abbreviation == r.abbreviation
    && m.region == r.region && m.status == r.status
  }

  /** `ms` is MEMBERS_DATA: record by record it carries the rows above. */
  predicate IsSeed(ms: seq<AssociationMember>) {
    |ms| == |SeedRows| && forall i :: 0 <= i < |ms| ==> Carries(ms[i], SeedRows[i])
  }

  /**
   * The place of a row in the table follows from its id: eu-1..eu-21,
   * ap-1..ap-10, am-1..am-3, af-1..af-5, then aff-eu-1.
   */
  function Position(r: SeedRow): int {
    match r.prefix
    case Eu => r.number - 1
    case Ap => r.number + 20
    case Am => r.number + 30
    case Af => r.number + 33
    case AffEu => r.number + 38
  }

  lemma SeedPositions()
    ensures |SeedRows| == 40
    ensures forall i :: 0 <= i < |SeedRows| ==> Position(SeedRows[i]) == i
  {
  }

  lemma PrefixTextInjective(p: IdPrefix, q: IdPrefix)
    requires PrefixText(p) == PrefixText(q)
    ensures p == q
  {
  }

  /** Rows with different prefix or number have different ids. */
  lemma RowIdInjective(r: SeedRow, t: SeedRow)
    requires RowId(r) == RowId(t)
    ensures r.prefix == t.prefix && r.number == t.number
  {
    DashNumberInjective(PrefixText(r.prefix), r.number, PrefixText(t.prefix), t.number);
    PrefixTextInjective(r.prefix, t.prefix);
  }

  /** No two seed records share an id. */
  lemma SeedIdsDistinct()
    ensures forall i, j :: 0 <= i < j < |SeedRows| ==> RowId(SeedRows[i]) != RowId(SeedRows[j])
  {
    SeedPositions();
    forall i, j | 0 <= i < j < |SeedRows|
      ensures RowId(SeedRows[i]) != RowId(SeedRows[j])
    {
      if RowId(SeedRows[i]) == RowId(SeedRows[j]) {
        RowIdInjective(SeedRows[i], SeedRows[j]);
      }
    }
  }

  /** Every seed record is an active association. */
  lemma SeedAllActiveAssociations()
    ensures forall i :: 0 <= i < |SeedRows| ==>
      SeedRows[i].status == Active && SeedRows[i].memberCategory == Association
  {
  }

  /** Seed record `eu-5` is BME, a European member that is active. */
  lemma SeedHasBme()
    ensures |SeedRows| == 40 && RowId(SeedRows[4]) == "eu-5"
    ensures SeedRows[4].abbreviation == "BME" && SeedRows[4].region == Europe
    ensures SeedRows[4].status == Active && SeedRows[4].memberType == Member
  {
    assert DecimalString(5) == "5";
  }

  /** The facts above, carried over to any record sequence that is the seed. */
  lemma {:induction false} SeedFacts(ms: seq<AssociationMember>)
    requires IsSeed(ms)
    ensures forall i, j :: 0 <= i < j < |ms| ==> ms[i].id != ms[j].id
    ensures forall i :: 0 <= i < |ms| ==> ms[i].status == Active && ms[i].memberCategory == Association
    ensures |ms| == 40 && ms[4].id == "eu-5" && ms[4].abbreviation == "BME"
    ensures ms[4].region == Europe && ms[4].status == Active
  {
    SeedIdsDistinct();
    SeedAllActiveAssociations();
    SeedHasBme();
    assert Carries(ms[4], SeedRows[4]);
    forall i, j | 0 <= i < j < |ms|
      ensures ms[i].id != ms[j].id
    {
      assert Carries(ms[i], SeedRows[i]) && Carries(ms[j], SeedRows[j]);
    }
    forall i | 0 <= i < |ms|
      ensures ms[i].status == Active && ms[i].memberCategory == Association
    {
      assert Carries(ms[i], SeedRows[i]);
    }
  }
}
