/** The Sponsor entity, its two enumerations, and the document form in which the
    sponsor collection stores a sponsor (enumeration constants by name). */
module Model {
  import opened Wrappers

  /** A Java `String` argument: `None` is null. */
  type NullableString = Option<string>

  /** `s != null && !s.isEmpty()`, the test behind every "supplied" check. */
  predicate Supplied(s: NullableString) {
    s.Some? && s.value != ""
  }

  /** Sponsor.CoopDuration */
  datatype CoopDuration = QuarterYear | FullYear {
    /** The constant's `name()`, which is also its stored form. */
    function Name(): string {
      match this
      case QuarterYear => "QUARTER_YEAR"
      case FullYear => "FULL_YEAR"
    }
  }

  /** Sponsor.SponsorClass */
  datatype SponsorClass = Platinum | Gold | Silver {
    function Name(): string {
      match this
      case Platinum => "PLATINUM"
      case Gold => "GOLD"
      case Silver => "SILVER"
    }
  }

  /** `CoopDuration.valueOf(s)`: the constant named exactly `s` (case-sensitive);
      `None` where valueOf throws IllegalArgumentException. */
  function ParseCoopDuration(s: string): (r: Option<CoopDuration>)
    ensures r.Some? ==> r.value.Name() == s
    ensures r.None? <==> forall d: CoopDuration :: d.Name() != s
  {
    if s == "QUARTER_YEAR" then Some(QuarterYear)
    else if s == "FULL_YEAR" then Some(FullYear)
    else
      assert forall d: CoopDuration :: d.Name() != s by {
        forall d: CoopDuration ensures d.Name() != s {
          if d.QuarterYear? {} else {}
        }
      }
      None
  }

  /** `SponsorClass.valueOf(s)`. */
  function ParseSponsorClass(s: string): (r: Option<SponsorClass>)
    ensures r.Some? ==> r.value.Name() == s
    ensures r.None? <==> forall c: SponsorClass :: c.Name() != s
  {
    if s == "PLATINUM" then Some(Platinum)
    else if s == "GOLD" then Some(Gold)
    else if s == "SILVER" then Some(Silver)
    else
      assert forall c: SponsorClass :: c.Name() != s by {
        forall c: SponsorClass ensures c.Name() != s {
          if c.Platinum? {} else if c.Gold? {} else {}
        }
      }
      None
  }

  /** Parsing a constant's name gives the constant back. */
  lemma {:induction false} ParseNames(d: CoopDuration, c: SponsorClass)
    ensures ParseCoopDuration(d.Name()) == Some(d)
    ensures ParseSponsorClass(c.Name()) == Some(c)
  {
  }

  /** The Sponsor object (the five fields the service fills in). */
  datatype Sponsor = Sponsor(
    sponsorName: string,
    coopDuration: CoopDuration,
    sponsorImageUrl: string,
    sponsorWebsiteUrl: string,
    sponsorClass: SponsorClass)

  /** A document of the sponsor collection: what a query or an update sees. */
  datatype SponsorDocument = SponsorDocument(
    sponsorName: string,
    coopDuration: string,
    sponsorImageUrl: string,
    sponsorWebsiteUrl: string,
    sponsorClass: string)

  /** The field names a query criterion or an update can refer to. */
  datatype DocField =
    | SponsorNameField
    | CoopDurationField
    | SponsorImageUrlField
    | SponsorWebsiteUrlField
    | SponsorClassField

  function FieldValue(d: SponsorDocument, f: DocField): string {
    match f
    case SponsorNameField => d.sponsorName
    case CoopDurationField => d.coopDuration
    case SponsorImageUrlField => d.sponsorImageUrl
    case SponsorWebsiteUrlField => d.sponsorWebsiteUrl
    case SponsorClassField => d.sponsorClass
  }

  /** Reading a document back as a Sponsor; `None` when a stored enumeration
      string names no constant. */
  function FromDocument(d: SponsorDocument): (r: Option<Sponsor>)
    ensures r.None? <==> ParseCoopDuration(d.coopDuration).None? || ParseSponsorClass(d.sponsorClass).None?
    ensures r.Some? ==> && r.value.sponsorName == d.sponsorName
                        && r.value.coopDuration.Name() == d.coopDuration
                        && r.value.sponsorImageUrl == d.sponsorImageUrl
                        && r.value.sponsorWebsiteUrl == d.sponsorWebsiteUrl
                        && r.value.sponsorClass.Name() == d.sponsorClass
  {
    match (ParseCoopDuration(d.coopDuration), ParseSponsorClass(d.sponsorClass))
    case (Some(duration), Some(c)) =>
      Some(Sponsor(d.sponsorName, duration, d.sponsorImageUrl, d.sponsorWebsiteUrl, c))
    case _ => None
  }

  /** The document that saving `s` writes. */
  function ToDocument(s: Sponsor): (d: SponsorDocument)
    ensures FromDocument(d) == Some(s)
    ensures d.sponsorName == s.sponsorName
  {
    ParseNames(s.coopDuration, s.sponsorClass);
    SponsorDocument(s.sponsorName, s.coopDuration.Name(), s.sponsorImageUrl,
                    s.sponsorWebsiteUrl, s.sponsorClass.Name())
  }

  /** Every document that reads back as a Sponsor is the document of that Sponsor. */
  lemma {:induction false} FromDocumentInverse(d: SponsorDocument)
    requires FromDocument(d).Some?
    ensures ToDocument(FromDocument(d).value) == d
  {
  }
}
