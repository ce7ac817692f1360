/**
 * The constant tables of the directory (constants.ts): region colours, the
 * affiliate marker style, the translated labels the model uses, the
 * "undisclosed" sentinel, the `field` helper and the default field
 * configuration. The seed records are in module Seed.
 */
module Constants {
  import opened Types
  import opened Strings

  datatype ColorStyle = ColorStyle(fill: string, text: string, stroke: string)

  /** REGION_COLORS: one style per region. */
  function RegionColors(r: Region): ColorStyle {
    match r
    case Europe => ColorStyle("#3B82F6", "#1E40AF", "#60A5FA")
    case AsiaPacific => ColorStyle("#F59E0B", "#B45309", "#FCD34D")
    case Americas => ColorStyle("#10B981", "#065F46", "#34D399")
    case Africa => ColorStyle("#F43F5E", "#9F1239", "#FB7185")
  }

  /** AFFILIATE_STYLE. */
  const AffiliateStyle: ColorStyle := ColorStyle("#475569", "#334155", "#94a3b8")

  /** The `region<Name>` entries of UI_TRANSLATIONS. */
  function RegionLabel(lang: Language, r: Region): string {
    match (lang, r)
    case (Zh, Europe) => "欧洲"
    case (Zh, AsiaPacific) => "亚太地区"
    case (Zh, Americas) => "美洲"
    case (Zh, Africa) => "非洲"
    case (En, Europe) => "Europe"
    case (En, AsiaPacific) => "Asia-Pacific"
    case (En, Americas) => "Americas"
    case (En, Africa) => "Africa"
  }

  /** The `verified` entry of UI_TRANSLATIONS. */
  function VerifiedLabel(lang: Language): string {
    if lang == Zh then "已确认" else "Verified"
  }

  /** The `pending` entry of UI_TRANSLATIONS. */
  function PendingLabel(lang: Language): string {
    if lang == Zh then "待核实" else "Pending"
  }

  /** The `coreBusiness` entry of UI_TRANSLATIONS. */
  function CoreBusinessLabel(lang: Language): string {
    if lang == Zh then "核心业务" else "Core Business"
  }

  /** The marker the card looks for to recognise an undisclosed value. */
  const UndisclosedMarker: string := "信息未公开"

  /**
   * TBD: the value the seed uses for information that is not public,
   * "信息未公开 / Information not publicly disclosed".
   */
  const Tbd: string := UndisclosedMarker + " / Information not publicly disclosed"

  /** `field(value, status = 'auto')`: a field with no source note. */
  function MakeField(value: string, status: VerificationStatus := Auto): Field {
    Field(value, status, None)
  }

  /** `field(v)` with the status left out is an `auto` field holding `v`. */
  lemma MakeFieldDefault(v: string)
    ensures MakeField(v) == Field(v, Auto, None)
  {
  }

  /** The TBD sentinel carries the undisclosed marker. */
  lemma {:induction false} TbdIsUndisclosed()
    ensures Contains(Tbd, UndisclosedMarker)
  {
    ContainsPrefix(Tbd, UndisclosedMarker);
  }

  /** DEFAULT_FIELD_CONFIG. */
  const DefaultFieldConfig: seq<FieldConfig> := [
    FieldConfig("yearEstablished", "成立时间", "Established", true, Basic, 1),
    FieldConfig("legalStatus", "组织性质", "Legal Status", true, Basic, 2),
    FieldConfig("membershipScale", "会员规模", "Members", true, Basic, 3),
    FieldConfig("staffSize", "员工规模", "Staff Size", true, Basic, 4),
    FieldConfig("foundingBackground", "发起背景", "Founding Background", true, Background, 1),
    FieldConfig("governmentAffiliation", "政府关联", "Govt Affiliation", true, Background, 2),
    FieldConfig("governance", "治理结构", "Governance", true, Background, 3),
    FieldConfig("flagshipPrograms", "品牌活动", "Flagship Programs", true, Influence, 1),
    FieldConfig("influence", "行业地位", "Industry Influence", true, Influence, 2),
    FieldConfig("internationalEngagement", "国际参与", "Intl Engagement", true, Influence, 3),
    FieldConfig("achievements", "近期成就", "Key Achievements", true, Influence, 4),
    FieldConfig("coreBusiness", "核心业务", "Core Business", true, Hidden, 99),
    FieldConfig("industryCoverage", "行业覆盖", "Industry Coverage", false, Hidden, 99)
  ]

  /** No two entries of the default configuration share a key. */
  lemma DefaultKeysDistinct()
    ensures forall i, j :: 0 <= i < j < |DefaultFieldConfig| ==>
      DefaultFieldConfig[i].key != DefaultFieldConfig[j].key
  {
  }

  /**
   * Within a section the default orders are distinct: basic is 1-4,
   * background 1-3 and influence 1-4.
   */
  lemma DefaultOrders()
    ensures forall i, j ::
      (0 <= i < j < |DefaultFieldConfig| &&
       DefaultFieldConfig[i].section == DefaultFieldConfig[j].section != Hidden) ==>
      DefaultFieldConfig[i].order != DefaultFieldConfig[j].order
    ensures forall i :: 0 <= i < |DefaultFieldConfig| ==> DefaultOrderRange(DefaultFieldConfig[i])
  {
  }

  /** The range of default orders each section uses; both hidden entries use 99. */
  predicate DefaultOrderRange(e: FieldConfig) {
    match e.section
    case Basic => 1 <= e.order <= 4
    case Background => 1 <= e.order <= 3
    case Influence => 1 <= e.order <= 4
    case Hidden => e.order == 99
  }

  /** `industryCoverage` is the only entry hidden by default. */
  lemma DefaultVisibility()
    ensures forall i :: 0 <= i < |DefaultFieldConfig| ==>
      (!DefaultFieldConfig[i].visible <==> DefaultFieldConfig[i].key == "industryCoverage")
  {
  }

  /** The four regions have four different marker colours. */
  lemma RegionColorsDistinct(r: Region, s: Region)
    requires r != s
    ensures RegionColors(r).fill != RegionColors(s).fill
  {
  }
}
