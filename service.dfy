/** SponsorService: the fail-fast validation in front of every write, and the
    guarded delegations to the repository. Each workflow is specified by a
    function of the collection and the arguments (CreateOutcome,
    UpdateValidation); SponsorService's CreateSponsor and UpdateSponsor run
    the checks step by step, as the service does, and are proved to agree
    with them. */
module Service {
  import opened Wrappers
  import opened Model
  import opened Mongo
  import opened UrlCheck
  import opened Repository

  /** The IllegalArgumentExceptions the service lets escape; `Raisable` says
      which field each kind can name. */
  datatype ServiceError =
    | MissingField(field: DocField)
    | DuplicateKey
    | NotFound
    | NoOpUpdate
    | InvalidEnumValue(field: DocField)
    | UrlFormatError(field: DocField)

  function Label(f: DocField): string {
    match f
    case SponsorNameField => "Sponsor name"
    case CoopDurationField => "Coop duration"
    case SponsorImageUrlField => "Sponsor image url"
    case SponsorWebsiteUrlField => "Sponsor website url"
    case SponsorClassField => "Sponsor class"
  }

  /** The exception's message, word for word. */
  function Message(e: ServiceError): string {
    match e
    case MissingField(f) => Label(f) + " cannot be null or empty"
    case DuplicateKey => "Sponsor name already exists"
    case NotFound => "Sponsor does not exist"
    case NoOpUpdate => "Nothing to be changed"
    case InvalidEnumValue(f) => Label(f) + " is not valid"
    case UrlFormatError(f) => Label(f) + " format error"
  }

  /** The errors the service actually raises: a missing field of any kind, an
      invalid value only of an enumeration field, a format error only of a URL
      field. */
  predicate Raisable(e: ServiceError) {
    match e
    case InvalidEnumValue(f) => f == CoopDurationField || f == SponsorClassField
    case UrlFormatError(f) => f == SponsorImageUrlField || f == SponsorWebsiteUrlField
    case _ => true
  }

  /** Two missing-field messages differ in length or in their first letter. */
  lemma {:induction false} MissingMessagesDistinct(f: DocField, g: DocField)
    requires f != g
    ensures Message(MissingField(f)) != Message(MissingField(g))
  {
    assert |Label(f)| != |Label(g)| || Label(f)[0] != Label(g)[0];
    assert Message(MissingField(f))[0] == Label(f)[0] && Message(MissingField(g))[0] == Label(g)[0];
  }

  /** A missing-field message is longer than any other raised message. */
  lemma {:induction false} MissingMessageLongest(f: DocField, e: ServiceError)
    requires Raisable(e) && !e.MissingField?
    ensures Message(MissingField(f)) != Message(e)
  {
    assert |Message(MissingField(f))| >= 36;
  }

  /** The other raised messages differ in length or in their first letter. */
  lemma {:induction false} OtherMessagesDistinct(e1: ServiceError, e2: ServiceError)
    requires Raisable(e1) && Raisable(e2) && !e1.MissingField? && !e2.MissingField? && e1 != e2
    ensures Message(e1) != Message(e2)
  {
    if |Message(e1)| == |Message(e2)| {
      assert Message(e1)[0] != Message(e2)[0];
    }
  }

  /** The messages tell every raised error apart: a caller that sees only the
      exception's text knows which check failed. */
  lemma {:induction false} MessagesDistinct(e1: ServiceError, e2: ServiceError)
    requires Raisable(e1) && Raisable(e2) && e1 != e2
    ensures Message(e1) != Message(e2)
  {
    if e1.MissingField? && e2.MissingField? {
      MissingMessagesDistinct(e1.field, e2.field);
    } else if e1.MissingField? {
      MissingMessageLongest(e1.field, e2);
    } else if e2.MissingField? {
      MissingMessageLongest(e2.field, e1);
    } else {
      OtherMessagesDistinct(e1, e2);
    }
  }

  /** What can leave the `try` block around a URL check: the "connection
      failed" IllegalArgumentException thrown inside it, or the IOException of
      the probe. */
  datatype UrlProblem = ConnectionFailed | ProbeThrew

  /** The `try` block: check the URL, throw "connection failed" on a verdict
      other than valid, else yield the normalised URL. */
  function TryUrl(url: string, probe: string -> ProbeOutcome): (r: Result<string, UrlProblem>)
    ensures r == Failure(ConnectionFailed) <==>
              probe(Normalise(url)).Responded? && probe(Normalise(url)).code != 200
    ensures r == Failure(ProbeThrew) <==> probe(Normalise(url)) == Threw
    ensures r.Success? <==> Reachable(url, probe)
    ensures r.Success? ==> r.value == Normalise(url)
  {
    match IsValidUrl(url, probe)
    case Failure(_) => Failure(ProbeThrew)
    case Success(checker) =>
      if !checker.IsValid() then Failure(ConnectionFailed) else Success(checker.GetUrl())
  }

  /** The whole `try`/`catch (Exception e)`: the catch also catches the
      "connection failed" exception, so every problem with the URL, an
      unreachable one included, surfaces as a format error. */
  function CheckUrl(url: string, probe: string -> ProbeOutcome, field: DocField): (r: Result<string, ServiceError>)
    ensures r.Success? <==> Reachable(url, probe)
    ensures r.Success? ==> r.value == Normalise(url)
    ensures r.Failure? ==> r.error == UrlFormatError(field)
  {
    match TryUrl(url, probe)
    case Success(u) => Success(u)
    case Failure(_) => Failure(UrlFormatError(field))
  }

  /** The URL check of an optional update field: an absent URL passes through
      untouched, a supplied one is checked and replaced by its normal form. */
  function CheckOptionalUrl(url: NullableString, probe: string -> ProbeOutcome, field: DocField)
    : (r: Result<NullableString, ServiceError>)
    ensures r.Failure? <==> Supplied(url) && !Reachable(url.value, probe)
    ensures r.Failure? ==> r.error == UrlFormatError(field)
    ensures r.Success? && Supplied(url) ==> r.value == Some(Normalise(url.value))
    ensures r.Success? && !Supplied(url) ==> r.value == url
  {
    if Supplied(url) then
      match CheckUrl(url.value, probe, field)
      case Success(u) => Success(Some(u))
      case Failure(e) => Failure(e)
    else
      Success(url)
  }

  predicate HasName(docs: seq<SponsorDocument>, name: string) {
    exists d :: d in docs && d.sponsorName == name
  }

  predicate AllSupplied(name: NullableString, coopDuration: NullableString, imageUrl: NullableString,
                        websiteUrl: NullableString, sponsorClass: NullableString)
  {
    Supplied(name) && Supplied(coopDuration) && Supplied(imageUrl) && Supplied(websiteUrl) && Supplied(sponsorClass)
  }

  /** `createSponsor` against collection `docs`: the five presence checks, the
      duplicate check, the image and then the website URL, the duration and
      then the class; the first failing check decides the error. */
  function CreateOutcome(docs: seq<SponsorDocument>, name: NullableString, coopDuration: NullableString,
                         imageUrl: NullableString, websiteUrl: NullableString, sponsorClass: NullableString,
                         probe: string -> ProbeOutcome): (r: Result<Sponsor, ServiceError>)
    ensures r.Failure? ==> Raisable(r.error) && r.error != NotFound && r.error != NoOpUpdate
    ensures r.Success? ==> && AllSupplied(name, coopDuration, imageUrl, websiteUrl, sponsorClass)
                           && !HasName(docs, name.value)
                           && r.value.sponsorName == name.value
  {
    if !Supplied(name) then Failure(MissingField(SponsorNameField))
    else if !Supplied(coopDuration) then Failure(MissingField(CoopDurationField))
    else if !Supplied(imageUrl) then Failure(MissingField(SponsorImageUrlField))
    else if !Supplied(websiteUrl) then Failure(MissingField(SponsorWebsiteUrlField))
    else if !Supplied(sponsorClass) then Failure(MissingField(SponsorClassField))
    else if FindOne(docs, SponsorNameField, name.value).Some? then Failure(DuplicateKey)
    else
      match CheckUrl(imageUrl.value, probe, SponsorImageUrlField)
      case Failure(e) => Failure(e)
      case Success(image) =>
        match CheckUrl(websiteUrl.value, probe, SponsorWebsiteUrlField)
        case Failure(e) => Failure(e)
        case Success(website) =>
          match ParseCoopDuration(coopDuration.value)
          case None => Failure(InvalidEnumValue(CoopDurationField))
          case Some(duration) =>
            match ParseSponsorClass(sponsorClass.value)
            case None => Failure(InvalidEnumValue(SponsorClassField))
            case Some(c) => Success(Sponsor(name.value, duration, image, website, c))
  }

  /** The arguments `updateSponsor` hands to the repository. */
  datatype UpdateArgs = UpdateArgs(
    coopDuration: NullableString,
    sponsorImageUrl: NullableString,
    sponsorWebsiteUrl: NullableString,
    sponsorClass: NullableString)

  predicate NoneSupplied(coopDuration: NullableString, imageUrl: NullableString,
                         websiteUrl: NullableString, sponsorClass: NullableString)
  {
    !Supplied(coopDuration) && !Supplied(imageUrl) && !Supplied(websiteUrl) && !Supplied(sponsorClass)
  }

  /** An absent enumeration field is accepted; a supplied one must name a constant. */
  predicate DurationAccepted(coopDuration: NullableString) {
    Supplied(coopDuration) ==> ParseCoopDuration(coopDuration.value).Some?
  }

  predicate ClassAccepted(sponsorClass: NullableString) {
    Supplied(sponsorClass) ==> ParseSponsorClass(sponsorClass.value).Some?
  }

  predicate UrlAccepted(url: NullableString, probe: string -> ProbeOutcome) {
    Supplied(url) ==> Reachable(url.value, probe)
  }

  /** The validation part of `updateSponsor` against collection `docs`:
      existence, "nothing to change", the duration, the class, the image URL and
      the website URL, in that order; on success, the repository arguments. */
  function UpdateValidation(docs: seq<SponsorDocument>, name: string, coopDuration: NullableString,
                            imageUrl: NullableString, websiteUrl: NullableString, sponsorClass: NullableString,
                            probe: string -> ProbeOutcome): (r: Result<UpdateArgs, ServiceError>)
    ensures r.Failure? ==> Raisable(r.error) && !r.error.MissingField? && r.error != DuplicateKey
    ensures r.Success? ==> HasName(docs, name) && !NoneSupplied(coopDuration, imageUrl, websiteUrl, sponsorClass)
  {
    if FindOne(docs, SponsorNameField, name).None? then Failure(NotFound)
    else if NoneSupplied(coopDuration, imageUrl, websiteUrl, sponsorClass) then Failure(NoOpUpdate)
    else if !DurationAccepted(coopDuration) then Failure(InvalidEnumValue(CoopDurationField))
    else if !ClassAccepted(sponsorClass) then Failure(InvalidEnumValue(SponsorClassField))
    else
      match CheckOptionalUrl(imageUrl, probe, SponsorImageUrlField)
      case Failure(e) => Failure(e)
      case Success(image) =>
        match CheckOptionalUrl(websiteUrl, probe, SponsorWebsiteUrlField)
        case Failure(e) => Failure(e)
        case Success(website) => Success(UpdateArgs(coopDuration, image, website, sponsorClass))
  }

  /** The collection after a validated update. */
  function ApplyArgs(docs: seq<SponsorDocument>, name: string, a: UpdateArgs): seq<SponsorDocument> {
    UpdatedDocs(docs, name, a.coopDuration, a.sponsorImageUrl, a.sponsorWebsiteUrl, a.sponsorClass)
  }

  // ---------------------------------------------------------------------------
  // The collection invariant the service keeps

  predicate UniqueNames(docs: seq<SponsorDocument>) {
    forall i, j :: 0 <= i < j < |docs| ==> docs[i].sponsorName != docs[j].sponsorName
  }

  /** A stored sponsor: a name, enumeration strings that name constants, and
      URLs with an explicit scheme. */
  predicate Conforms(d: SponsorDocument) {
    && d.sponsorName != ""
    && FromDocument(d).Some?
    && HasScheme(d.sponsorImageUrl)
    && HasScheme(d.sponsorWebsiteUrl)
  }

  predicate StoreInvariant(docs: seq<SponsorDocument>) {
    UniqueNames(docs) && forall i :: 0 <= i < |docs| ==> Conforms(docs[i])
  }

  // ---------------------------------------------------------------------------
  // createSponsor

  /** The presence checks run first, in the order name, duration, image URL,
      website URL, class; the first absent field is the one reported. */
  lemma {:induction false} CreatePresenceOrder(docs: seq<SponsorDocument>, name: NullableString,
                                               coopDuration: NullableString, imageUrl: NullableString,
                                               websiteUrl: NullableString, sponsorClass: NullableString,
                                               probe: string -> ProbeOutcome)
    ensures var r := CreateOutcome(docs, name, coopDuration, imageUrl, websiteUrl, sponsorClass, probe);
      && (r == Failure(MissingField(SponsorNameField)) <==> !Supplied(name))
      && (r == Failure(MissingField(CoopDurationField)) <==> Supplied(name) && !Supplied(coopDuration))
      && (r == Failure(MissingField(SponsorImageUrlField)) <==>
            Supplied(name) && Supplied(coopDuration) && !Supplied(imageUrl))
      && (r == Failure(MissingField(SponsorWebsiteUrlField)) <==>
            Supplied(name) && Supplied(coopDuration) && Supplied(imageUrl) && !Supplied(websiteUrl))
      && (r == Failure(MissingField(SponsorClassField)) <==>
            Supplied(name) && Supplied(coopDuration) && Supplied(imageUrl) && Supplied(websiteUrl)
            && !Supplied(sponsorClass))
  {
  }

  /** With every field present: a taken name is a duplicate; then any problem
      with the image URL, and after it with the website URL, whether the probe
      answered other than 200 or threw, is that URL's format error. */
  lemma {:induction false} CreateNameAndUrlChecks(docs: seq<SponsorDocument>, name: NullableString,
                                                  coopDuration: NullableString, imageUrl: NullableString,
                                                  websiteUrl: NullableString, sponsorClass: NullableString,
                                                  probe: string -> ProbeOutcome)
    requires AllSupplied(name, coopDuration, imageUrl, websiteUrl, sponsorClass)
    ensures var r := CreateOutcome(docs, name, coopDuration, imageUrl, websiteUrl, sponsorClass, probe);
      && (r == Failure(DuplicateKey) <==> HasName(docs, name.value))
      && (r == Failure(UrlFormatError(SponsorImageUrlField)) <==>
            !HasName(docs, name.value) && !Reachable(imageUrl.value, probe))
      && (r == Failure(UrlFormatError(SponsorWebsiteUrlField)) <==>
            !HasName(docs, name.value) && Reachable(imageUrl.value, probe) && !Reachable(websiteUrl.value, probe))
  {
  }

  /** The enumeration checks come last, duration before class; when everything
      passes, the sponsor carries the given name, the constants named by the
      exact strings and the normalised URLs, so its document stores the given
      strings and URLs with a scheme. */
  lemma {:induction false} CreateEnumChecksAndResult(docs: seq<SponsorDocument>, name: NullableString,
                                                     coopDuration: NullableString, imageUrl: NullableString,
                                                     websiteUrl: NullableString, sponsorClass: NullableString,
                                                     probe: string -> ProbeOutcome)
    requires AllSupplied(name, coopDuration, imageUrl, websiteUrl, sponsorClass)
    requires !HasName(docs, name.value)
    requires Reachable(imageUrl.value, probe) && Reachable(websiteUrl.value, probe)
    ensures var r := CreateOutcome(docs, name, coopDuration, imageUrl, websiteUrl, sponsorClass, probe);
      && (r == Failure(InvalidEnumValue(CoopDurationField)) <==> ParseCoopDuration(coopDuration.value).None?)
      && (r == Failure(InvalidEnumValue(SponsorClassField)) <==>
            ParseCoopDuration(coopDuration.value).Some? && ParseSponsorClass(sponsorClass.value).None?)
      && (r.Success? <==>
            ParseCoopDuration(coopDuration.value).Some? && ParseSponsorClass(sponsorClass.value).Some?)
      && (r.Success? ==>
            && r.value == Sponsor(name.value, ParseCoopDuration(coopDuration.value).value,
                                  Normalise(imageUrl.value), Normalise(websiteUrl.value),
                                  ParseSponsorClass(sponsorClass.value).value)
            && ToDocument(r.value) == SponsorDocument(name.value, coopDuration.value, Normalise(imageUrl.value),
                                                      Normalise(websiteUrl.value), sponsorClass.value)
            && HasScheme(r.value.sponsorImageUrl) && HasScheme(r.value.sponsorWebsiteUrl))
  {
  }

  /** A create succeeds only when every check passes. */
  lemma {:induction false} CreateSuccessRequiresAllChecks(docs: seq<SponsorDocument>, name: NullableString,
                                                          coopDuration: NullableString, imageUrl: NullableString,
                                                          websiteUrl: NullableString, sponsorClass: NullableString,
                                                          probe: string -> ProbeOutcome)
    requires CreateOutcome(docs, name, coopDuration, imageUrl, websiteUrl, sponsorClass, probe).Success?
    ensures AllSupplied(name, coopDuration, imageUrl, websiteUrl, sponsorClass)
    ensures !HasName(docs, name.value)
    ensures Reachable(imageUrl.value, probe) && Reachable(websiteUrl.value, probe)
    ensures ParseCoopDuration(coopDuration.value).Some? && ParseSponsorClass(sponsorClass.value).Some?
  {
  }

  /** After a successful create, looking the name up finds exactly the saved document. */
  lemma {:induction false} CreateThenFind(docs: seq<SponsorDocument>, name: NullableString,
                                          coopDuration: NullableString, imageUrl: NullableString,
                                          websiteUrl: NullableString, sponsorClass: NullableString,
                                          probe: string -> ProbeOutcome)
    requires CreateOutcome(docs, name, coopDuration, imageUrl, websiteUrl, sponsorClass, probe).Success?
    ensures var s := CreateOutcome(docs, name, coopDuration, imageUrl, websiteUrl, sponsorClass, probe).value;
      FindOne(docs + [ToDocument(s)], SponsorNameField, name.value) == Some(ToDocument(s))
  {
    var s := CreateOutcome(docs, name, coopDuration, imageUrl, websiteUrl, sponsorClass, probe).value;
    var all := docs + [ToDocument(s)];
    forall j | 0 <= j < |docs| ensures !Matches(all[j], SponsorNameField, name.value) {
      assert all[j] == docs[j];
      assert docs[j] in docs;
    }
    assert Matches(all[|docs|], SponsorNameField, name.value);
  }

  /** Creating a second sponsor under a name just saved fails as a duplicate,
      whatever its other (present) fields and whatever the probe says. */
  lemma {:induction false} CreateDuplicateRejected(docs: seq<SponsorDocument>, name: NullableString,
                                                   coopDuration: NullableString, imageUrl: NullableString,
                                                   websiteUrl: NullableString, sponsorClass: NullableString,
                                                   probe: string -> ProbeOutcome,
                                                   coopDuration': NullableString, imageUrl': NullableString,
                                                   websiteUrl': NullableString, sponsorClass': NullableString,
                                                   probe': string -> ProbeOutcome)
    requires CreateOutcome(docs, name, coopDuration, imageUrl, websiteUrl, sponsorClass, probe).Success?
    requires AllSupplied(name, coopDuration', imageUrl', websiteUrl', sponsorClass')
    ensures var s := CreateOutcome(docs, name, coopDuration, imageUrl, websiteUrl, sponsorClass, probe).value;
      CreateOutcome(docs + [ToDocument(s)], name, coopDuration', imageUrl', websiteUrl', sponsorClass', probe')
        == Failure(DuplicateKey)
  {
    CreateThenFind(docs, name, coopDuration, imageUrl, websiteUrl, sponsorClass, probe);
  }

  /** A successful create keeps names unique and every stored sponsor conforming. */
  lemma {:induction false} CreatePreservesInvariant(docs: seq<SponsorDocument>, name: NullableString,
                                                    coopDuration: NullableString, imageUrl: NullableString,
                                                    websiteUrl: NullableString, sponsorClass: NullableString,
                                                    probe: string -> ProbeOutcome)
    requires StoreInvariant(docs)
    requires CreateOutcome(docs, name, coopDuration, imageUrl, websiteUrl, sponsorClass, probe).Success?
    ensures var s := CreateOutcome(docs, name, coopDuration, imageUrl, websiteUrl, sponsorClass, probe).value;
      StoreInvariant(docs + [ToDocument(s)])
  {
  }

  // ---------------------------------------------------------------------------
  // updateSponsor

  /** The update checks, in order: existence, "nothing to change", the duration,
      the class, the image URL, the website URL. Absent optional fields are never
      errors, and every URL problem is a format error. */
  lemma {:induction false} UpdateValidationOrder(docs: seq<SponsorDocument>, name: string,
                                                 coopDuration: NullableString, imageUrl: NullableString,
                                                 websiteUrl: NullableString, sponsorClass: NullableString,
                                                 probe: string -> ProbeOutcome)
    ensures var v := UpdateValidation(docs, name, coopDuration, imageUrl, websiteUrl, sponsorClass, probe);
      var changes := !NoneSupplied(coopDuration, imageUrl, websiteUrl, sponsorClass);
      && (v == Failure(NotFound) <==> !HasName(docs, name))
      && (v == Failure(NoOpUpdate) <==> HasName(docs, name) && !changes)
      && (v == Failure(InvalidEnumValue(CoopDurationField)) <==>
            HasName(docs, name) && changes && !DurationAccepted(coopDuration))
      && (v == Failure(InvalidEnumValue(SponsorClassField)) <==>
            HasName(docs, name) && changes && DurationAccepted(coopDuration) && !ClassAccepted(sponsorClass))
      && (v == Failure(UrlFormatError(SponsorImageUrlField)) <==>
            HasName(docs, name) && changes && DurationAccepted(coopDuration) && ClassAccepted(sponsorClass)
            && !UrlAccepted(imageUrl, probe))
      && (v == Failure(UrlFormatError(SponsorWebsiteUrlField)) <==>
            HasName(docs, name) && changes && DurationAccepted(coopDuration) && ClassAccepted(sponsorClass)
            && UrlAccepted(imageUrl, probe) && !UrlAccepted(websiteUrl, probe))
      && (v.Success? <==>
            HasName(docs, name) && changes && DurationAccepted(coopDuration) && ClassAccepted(sponsorClass)
            && UrlAccepted(imageUrl, probe) && UrlAccepted(websiteUrl, probe))
  {
  }

  /** A validated update hands on the enumeration strings as given, each
      supplied URL in normal form, and absent fields as they came. */
  lemma {:induction false} UpdateValidationArgs(docs: seq<SponsorDocument>, name: string,
                                                coopDuration: NullableString, imageUrl: NullableString,
                                                websiteUrl: NullableString, sponsorClass: NullableString,
                                                probe: string -> ProbeOutcome)
    requires UpdateValidation(docs, name, coopDuration, imageUrl, websiteUrl, sponsorClass, probe).Success?
    ensures var a := UpdateValidation(docs, name, coopDuration, imageUrl, websiteUrl, sponsorClass, probe).value;
      && a.coopDuration == coopDuration && a.sponsorClass == sponsorClass
      && (Supplied(imageUrl) ==> a.sponsorImageUrl == Some(Normalise(imageUrl.value)))
      && (!Supplied(imageUrl) ==> a.sponsorImageUrl == imageUrl)
      && (Supplied(websiteUrl) ==> a.sponsorWebsiteUrl == Some(Normalise(websiteUrl.value)))
      && (!Supplied(websiteUrl) ==> a.sponsorWebsiteUrl == websiteUrl)
  {
  }

  /** The stored effect of a validated update: the first sponsor of that name
      gets each supplied field (URLs normalised), keeps every absent one and
      its name; every other sponsor is untouched. */
  lemma {:induction false} UpdateEffect(docs: seq<SponsorDocument>, name: string,
                                        coopDuration: NullableString, imageUrl: NullableString,
                                        websiteUrl: NullableString, sponsorClass: NullableString,
                                        probe: string -> ProbeOutcome, k: nat)
    requires UpdateValidation(docs, name, coopDuration, imageUrl, websiteUrl, sponsorClass, probe).Success?
    requires FirstMatch(docs, SponsorNameField, name) == Some(k)
    ensures var a := UpdateValidation(docs, name, coopDuration, imageUrl, websiteUrl, sponsorClass, probe).value;
      var r := ApplyArgs(docs, name, a);
      && |r| == |docs|
      && (forall j :: 0 <= j < |docs| && j != k ==> r[j] == docs[j])
      && r[k].sponsorName == docs[k].sponsorName
      && r[k].coopDuration == (if Supplied(coopDuration) then coopDuration.value else docs[k].coopDuration)
      && r[k].sponsorClass == (if Supplied(sponsorClass) then sponsorClass.value else docs[k].sponsorClass)
      && r[k].sponsorImageUrl ==
           (if Supplied(imageUrl) then Normalise(imageUrl.value) else docs[k].sponsorImageUrl)
      && r[k].sponsorWebsiteUrl ==
           (if Supplied(websiteUrl) then Normalise(websiteUrl.value) else docs[k].sponsorWebsiteUrl)
  {
  }

  /** Two collections with the same names position by position have the same
      first match for a name. */
  lemma {:induction false} FirstMatchByName(a: seq<SponsorDocument>, b: seq<SponsorDocument>, name: string)
    requires |a| == |b|
    requires forall j :: 0 <= j < |a| ==> a[j].sponsorName == b[j].sponsorName
    ensures FirstMatch(a, SponsorNameField, name) == FirstMatch(b, SponsorNameField, name)
  {
    forall j | 0 <= j < |a|
      ensures Matches(a[j], SponsorNameField, name) == Matches(b[j], SponsorNameField, name)
    {
    }
    var x := FirstMatch(a, SponsorNameField, name);
    var y := FirstMatch(b, SponsorNameField, name);
    if x.Some? && y.Some? {
      assert !(x.value < y.value) && !(y.value < x.value);
    }
  }

  /** A validated update keeps the names unique and every stored sponsor conforming. */
  lemma {:induction false} UpdatePreservesInvariant(docs: seq<SponsorDocument>, name: string,
                                                    coopDuration: NullableString, imageUrl: NullableString,
                                                    websiteUrl: NullableString, sponsorClass: NullableString,
                                                    probe: string -> ProbeOutcome)
    requires StoreInvariant(docs)
    requires UpdateValidation(docs, name, coopDuration, imageUrl, websiteUrl, sponsorClass, probe).Success?
    ensures var a := UpdateValidation(docs, name, coopDuration, imageUrl, websiteUrl, sponsorClass, probe).value;
      StoreInvariant(ApplyArgs(docs, name, a))
  {
    var a := UpdateValidation(docs, name, coopDuration, imageUrl, websiteUrl, sponsorClass, probe).value;
    var k := FirstMatch(docs, SponsorNameField, name).value;
    UpdateEffect(docs, name, coopDuration, imageUrl, websiteUrl, sponsorClass, probe, k);
    UpdateValidationOrder(docs, name, coopDuration, imageUrl, websiteUrl, sponsorClass, probe);
    var r := ApplyArgs(docs, name, a);
    assert Conforms(docs[k]);
    assert ParseCoopDuration(r[k].coopDuration).Some? && ParseSponsorClass(r[k].sponsorClass).Some?;
    assert Conforms(r[k]);
  }

  /** Repeating a validated update validates the same way and changes nothing,
      so the repeated call reports no modification. */
  lemma {:induction false} UpdateRepeatIsNoChange(docs: seq<SponsorDocument>, name: string,
                                                  coopDuration: NullableString, imageUrl: NullableString,
                                                  websiteUrl: NullableString, sponsorClass: NullableString,
                                                  probe: string -> ProbeOutcome)
    requires UpdateValidation(docs, name, coopDuration, imageUrl, websiteUrl, sponsorClass, probe).Success?
    ensures var v := UpdateValidation(docs, name, coopDuration, imageUrl, websiteUrl, sponsorClass, probe);
      var once := ApplyArgs(docs, name, v.value);
      && UpdateValidation(once, name, coopDuration, imageUrl, websiteUrl, sponsorClass, probe) == v
      && ApplyArgs(once, name, v.value) == once
  {
    var a := UpdateValidation(docs, name, coopDuration, imageUrl, websiteUrl, sponsorClass, probe).value;
    var once := ApplyArgs(docs, name, a);
    UpdatedDocsFrame(docs, name, a.coopDuration, a.sponsorImageUrl, a.sponsorWebsiteUrl, a.sponsorClass);
    FirstMatchByName(once, docs, name);
    var k := FirstMatch(docs, SponsorNameField, name).value;
    PatchedChanges(docs[k], a.coopDuration, a.sponsorImageUrl, a.sponsorWebsiteUrl, a.sponsorClass);
    assert once[k := once[k]] == once;
  }

  // ---------------------------------------------------------------------------
  // deleteSponsorByName and lookups under the invariant

  /** The tail of a collection with unique names has unique names, none of
      them the head's. */
  lemma {:induction false} UniqueTail(docs: seq<SponsorDocument>)
    requires UniqueNames(docs) && docs != []
    ensures UniqueNames(docs[1..])
    ensures forall e :: e in docs[1..] ==> e.sponsorName != docs[0].sponsorName
  {
  }

  /** A document whose name no other has, in front of unique names, keeps them unique. */
  lemma {:induction false} UniqueCons(d: SponsorDocument, rest: seq<SponsorDocument>)
    requires UniqueNames(rest)
    requires forall e :: e in rest ==> e.sponsorName != d.sponsorName
    ensures UniqueNames([d] + rest)
  {
  }

  /** Removing documents keeps the remaining names unique. */
  lemma {:induction false} RemoveKeepsUnique(docs: seq<SponsorDocument>, f: DocField, v: string)
    requires UniqueNames(docs)
    ensures UniqueNames(Remove(docs, f, v))
  {
    if docs != [] {
      UniqueTail(docs);
      RemoveKeepsUnique(docs[1..], f, v);
      if !Matches(docs[0], f, v) {
        UniqueCons(docs[0], Remove(docs[1..], f, v));
      }
    }
  }

  /** Deleting by name keeps the invariant. */
  lemma {:induction false} DeletePreservesInvariant(docs: seq<SponsorDocument>, name: string)
    requires StoreInvariant(docs)
    ensures StoreInvariant(Remove(docs, SponsorNameField, name))
  {
    RemoveKeepsUnique(docs, SponsorNameField, name);
    var r := Remove(docs, SponsorNameField, name);
    forall i | 0 <= i < |r| ensures Conforms(r[i]) {
      assert r[i] in r;
      var j :| 0 <= j < |docs| && docs[j] == r[i];
    }
  }

  /** With unique names at most one document carries a name: the lookup finds
      the only one, and deleting by that name removes exactly one document. */
  lemma {:induction false} UniqueNameLookup(docs: seq<SponsorDocument>, name: string)
    requires UniqueNames(docs)
    ensures |Find(docs, SponsorNameField, name)| <= 1
    ensures FindOne(docs, SponsorNameField, name).Some? ==>
              forall d :: d in docs && d.sponsorName == name ==> d == FindOne(docs, SponsorNameField, name).value
    ensures HasName(docs, name) ==> |Remove(docs, SponsorNameField, name)| == |docs| - 1
  {
    if docs != [] {
      var tail := docs[1..];
      UniqueTail(docs);
      UniqueNameLookup(tail, name);
      assert docs == [docs[0]] + tail;
      if docs[0].sponsorName == name {
        assert Find(tail, SponsorNameField, name) == [];
      }
    }
  }

  /** The service: validation around a repository it holds. */
  class SponsorService {
    const repo: SponsorRepository

    constructor(sponsorRepository: SponsorRepository)
      ensures repo == sponsorRepository
    {
      repo := sponsorRepository;
    }

    /** `createSponsor`: fail-fast checks, then exactly one save of the sponsor
        with normalised URLs; no write on any failure. */
    method CreateSponsor(sponsorName: NullableString, coopDuration: NullableString,
                         sponsorImageUrl: NullableString, sponsorWebsiteUrl: NullableString,
                         sponsorClass: NullableString, probe: string -> ProbeOutcome)
      returns (r: Result<Sponsor, ServiceError>)
      modifies repo
      ensures r == CreateOutcome(old(repo.docs), sponsorName, coopDuration, sponsorImageUrl,
                                 sponsorWebsiteUrl, sponsorClass, probe)
      ensures r.Success? ==> repo.docs == old(repo.docs) + [ToDocument(r.value)]
      ensures r.Failure? ==> repo.docs == old(repo.docs)
      ensures StoreInvariant(old(repo.docs)) ==> StoreInvariant(repo.docs)
    {
      if !Supplied(sponsorName) { return Failure(MissingField(SponsorNameField)); }
      if !Supplied(coopDuration) { return Failure(MissingField(CoopDurationField)); }
      if !Supplied(sponsorImageUrl) { return Failure(MissingField(SponsorImageUrlField)); }
      if !Supplied(sponsorWebsiteUrl) { return Failure(MissingField(SponsorWebsiteUrlField)); }
      if !Supplied(sponsorClass) { return Failure(MissingField(SponsorClassField)); }

      var existing := repo.FindSponsorByName(sponsorName.value);
      if existing.Some? { return Failure(DuplicateKey); }

      var imageUrl := sponsorImageUrl.value;
      var triedImage := TryUrl(imageUrl, probe);
      if triedImage.Failure? {
        // the catch (Exception e) also catches "connection failed"
        return Failure(UrlFormatError(SponsorImageUrlField));
      }
      imageUrl := triedImage.value;

      var websiteUrl := sponsorWebsiteUrl.value;
      var triedWebsite := TryUrl(websiteUrl, probe);
      if triedWebsite.Failure? {
        return Failure(UrlFormatError(SponsorWebsiteUrlField));
      }
      websiteUrl := triedWebsite.value;

      var durationEnum := ParseCoopDuration(coopDuration.value);
      if durationEnum.None? { return Failure(InvalidEnumValue(CoopDurationField)); }
      var classEnum := ParseSponsorClass(sponsorClass.value);
      if classEnum.None? { return Failure(InvalidEnumValue(SponsorClassField)); }

      ghost var before := repo.docs;
      var sponsor := Sponsor(sponsorName.value, durationEnum.value, imageUrl, websiteUrl, classEnum.value);
      var saved := repo.CreateSponsor(sponsor);
      r := Success(saved);
      if StoreInvariant(before) {
        CreatePreservesInvariant(before, sponsorName, coopDuration, sponsorImageUrl, sponsorWebsiteUrl,
                                 sponsorClass, probe);
      }
    }

    /** `findSponsorByName`: a null or empty name is rejected; otherwise the
        store's lookup, the first document of that name. */
    method FindSponsorByName(sponsorName: NullableString) returns (r: Result<Option<SponsorDocument>, ServiceError>)
      ensures r.Failure? <==> !Supplied(sponsorName)
      ensures r.Failure? ==> r.error == MissingField(SponsorNameField)
      ensures r.Success? ==> (r.value.None? <==> !HasName(repo.docs, sponsorName.value))
      ensures r.Success? && r.value.Some? ==>
                r.value.value in repo.docs && r.value.value.sponsorName == sponsorName.value
      ensures r.Success? && r.value.Some? ==>
                exists k :: 0 <= k < |repo.docs| && repo.docs[k] == r.value.value &&
                            forall j :: 0 <= j < k ==> repo.docs[j].sponsorName != sponsorName.value
    {
      if !Supplied(sponsorName) {
        return Failure(MissingField(SponsorNameField));
      }
      var found := repo.FindSponsorByName(sponsorName.value);
      r := Success(found);
    }

    /** `findSponsorsByClass`: a string other than the three class names is
        rejected before the store is asked; otherwise exactly the store's matches. */
    method FindSponsorsByClass(sponsorClass: string) returns (r: Result<seq<SponsorDocument>, ServiceError>)
      ensures r.Failure? <==> sponsorClass != "PLATINUM" && sponsorClass != "GOLD" && sponsorClass != "SILVER"
      ensures r.Failure? ==> r.error == InvalidEnumValue(SponsorClassField)
      ensures r.Success? ==> forall d :: d in r.value <==> d in repo.docs && d.sponsorClass == sponsorClass
      ensures r.Success? ==> forall d :: multiset(r.value)[d] ==
                                         if d.sponsorClass == sponsorClass then multiset(repo.docs)[d] else 0
    {
      if sponsorClass != "PLATINUM" && sponsorClass != "GOLD" && sponsorClass != "SILVER" {
        return Failure(InvalidEnumValue(SponsorClassField));
      }
      var found := repo.FindSponsorsByClass(sponsorClass);
      r := Success(found);
    }

    /** `findSponsorsByCoopDuration`: likewise for the two duration names. */
    method FindSponsorsByCoopDuration(coopDuration: string) returns (r: Result<seq<SponsorDocument>, ServiceError>)
      ensures r.Failure? <==> coopDuration != "QUARTER_YEAR" && coopDuration != "FULL_YEAR"
      ensures r.Failure? ==> r.error == InvalidEnumValue(CoopDurationField)
      ensures r.Success? ==> forall d :: d in r.value <==> d in repo.docs && d.coopDuration == coopDuration
      ensures r.Success? ==> forall d :: multiset(r.value)[d] ==
                                         if d.coopDuration == coopDuration then multiset(repo.docs)[d] else 0
    {
      if coopDuration != "QUARTER_YEAR" && coopDuration != "FULL_YEAR" {
        return Failure(InvalidEnumValue(CoopDurationField));
      }
      var found := repo.FindSponsorsByCoopDuration(coopDuration);
      r := Success(found);
    }

    /** `deleteSponsorByName`: no check of its own; true iff a sponsor of that
        name existed, and then every document of that name is gone. */
    method DeleteSponsorByName(sponsorName: string) returns (deleted: bool)
      modifies repo
      ensures deleted <==> HasName(old(repo.docs), sponsorName)
      ensures repo.docs == Remove(old(repo.docs), SponsorNameField, sponsorName)
      ensures StoreInvariant(old(repo.docs)) ==> StoreInvariant(repo.docs)
    {
      ghost var before := repo.docs;
      deleted := repo.DeleteSponsorByName(sponsorName);
      if StoreInvariant(before) {
        DeletePreservesInvariant(before, sponsorName);
      }
    }

    /** `updateSponsor`: existence, "nothing to change", the enumeration values
        and then the URLs are checked before anything is written; then one
        partial update with the URLs normalised. */
    method UpdateSponsor(sponsorName: string, coopDuration: NullableString, sponsorImageUrl: NullableString,
                         sponsorWebsiteUrl: NullableString, sponsorClass: NullableString,
                         probe: string -> ProbeOutcome)
      returns (r: Result<bool, ServiceError>)
      modifies repo
      ensures var v := UpdateValidation(old(repo.docs), sponsorName, coopDuration, sponsorImageUrl,
                                        sponsorWebsiteUrl, sponsorClass, probe);
        && (v.Failure? ==> r == Failure(v.error) && repo.docs == old(repo.docs))
        && (v.Success? ==> repo.docs == ApplyArgs(old(repo.docs), sponsorName, v.value)
                           && r == Success(repo.docs != old(repo.docs)))
      ensures StoreInvariant(old(repo.docs)) ==> StoreInvariant(repo.docs)
    {
      ghost var v := UpdateValidation(repo.docs, sponsorName, coopDuration, sponsorImageUrl,
                                      sponsorWebsiteUrl, sponsorClass, probe);
      var existing := repo.FindSponsorByName(sponsorName);
      if existing.None? {
        assert v == Failure(NotFound);
        return Failure(NotFound);
      }

      if !Supplied(coopDuration) && !Supplied(sponsorImageUrl) && !Supplied(sponsorWebsiteUrl)
         && !Supplied(sponsorClass) {
        assert v == Failure(NoOpUpdate);
        return Failure(NoOpUpdate);
      }

      if Supplied(coopDuration) && coopDuration.value != "QUARTER_YEAR" && coopDuration.value != "FULL_YEAR" {
        assert v == Failure(InvalidEnumValue(CoopDurationField));
        return Failure(InvalidEnumValue(CoopDurationField));
      }
      if Supplied(sponsorClass) && sponsorClass.value != "PLATINUM" && sponsorClass.value != "GOLD"
         && sponsorClass.value != "SILVER" {
        assert v == Failure(InvalidEnumValue(SponsorClassField));
        return Failure(InvalidEnumValue(SponsorClassField));
      }
      assert DurationAccepted(coopDuration) && ClassAccepted(sponsorClass);

      var imageUrl := sponsorImageUrl;
      if Supplied(imageUrl) {
        var tried := TryUrl(imageUrl.value, probe);
        if tried.Failure? {
          assert v == Failure(UrlFormatError(SponsorImageUrlField));
          return Failure(UrlFormatError(SponsorImageUrlField));
        }
        imageUrl := Some(tried.value);
      }
      assert CheckOptionalUrl(sponsorImageUrl, probe, SponsorImageUrlField) == Success(imageUrl);
      var websiteUrl := sponsorWebsiteUrl;
      if Supplied(websiteUrl) {
        var tried := TryUrl(websiteUrl.value, probe);
        if tried.Failure? {
          assert v == Failure(UrlFormatError(SponsorWebsiteUrlField));
          return Failure(UrlFormatError(SponsorWebsiteUrlField));
        }
        websiteUrl := Some(tried.value);
      }
      assert CheckOptionalUrl(sponsorWebsiteUrl, probe, SponsorWebsiteUrlField) == Success(websiteUrl);
      assert v == Success(UpdateArgs(coopDuration, imageUrl, websiteUrl, sponsorClass));

      ghost var before := repo.docs;
      var updated := repo.UpdateSponsor(sponsorName, coopDuration, imageUrl, websiteUrl, sponsorClass);
      r := Success(updated);
      if StoreInvariant(before) {
        UpdatePreservesInvariant(before, sponsorName, coopDuration, sponsorImageUrl, sponsorWebsiteUrl,
                                 sponsorClass, probe);
      }
    }
  }
}
