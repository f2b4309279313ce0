/** SponsorRepository: the sponsor collection, held in the object, and the
    six operations on it. */
module Repository {
  import opened Wrappers
  import opened Model
  import opened Mongo

  /** A stored field after `updateSponsor`: the supplied value, or the old one. */
  function SetIfSupplied(value: NullableString, old_value: string): string {
    if Supplied(value) then value.value else old_value
  }

  /** The document after `updateSponsor`'s update: each supplied field replaced,
      the name never touched. */
  function Patched(d: SponsorDocument, coopDuration: NullableString, sponsorImageUrl: NullableString,
                   sponsorWebsiteUrl: NullableString, sponsorClass: NullableString): SponsorDocument
  {
    d.(coopDuration := SetIfSupplied(coopDuration, d.coopDuration),
       sponsorImageUrl := SetIfSupplied(sponsorImageUrl, d.sponsorImageUrl),
       sponsorWebsiteUrl := SetIfSupplied(sponsorWebsiteUrl, d.sponsorWebsiteUrl),
       sponsorClass := SetIfSupplied(sponsorClass, d.sponsorClass))
  }

  /** The collection after `updateSponsor(name, ...)`: the first document named
      `name` patched, all others as they were. */
  function UpdatedDocs(docs: seq<SponsorDocument>, name: string, coopDuration: NullableString,
                       sponsorImageUrl: NullableString, sponsorWebsiteUrl: NullableString,
                       sponsorClass: NullableString): seq<SponsorDocument>
  {
    match FirstMatch(docs, SponsorNameField, name)
    case None => docs
    case Some(k) => docs[k := Patched(docs[k], coopDuration, sponsorImageUrl, sponsorWebsiteUrl, sponsorClass)]
  }

  /** Patching never renames, sets exactly the supplied fields and leaves the rest. */
  lemma {:induction false} PatchedFields(d: SponsorDocument, coopDuration: NullableString,
                                         sponsorImageUrl: NullableString, sponsorWebsiteUrl: NullableString,
                                         sponsorClass: NullableString)
    ensures var p := Patched(d, coopDuration, sponsorImageUrl, sponsorWebsiteUrl, sponsorClass);
      && p.sponsorName == d.sponsorName
      && (Supplied(coopDuration) ==> p.coopDuration == coopDuration.value)
      && (!Supplied(coopDuration) ==> p.coopDuration == d.coopDuration)
      && (Supplied(sponsorImageUrl) ==> p.sponsorImageUrl == sponsorImageUrl.value)
      && (!Supplied(sponsorImageUrl) ==> p.sponsorImageUrl == d.sponsorImageUrl)
      && (Supplied(sponsorWebsiteUrl) ==> p.sponsorWebsiteUrl == sponsorWebsiteUrl.value)
      && (!Supplied(sponsorWebsiteUrl) ==> p.sponsorWebsiteUrl == d.sponsorWebsiteUrl)
      && (Supplied(sponsorClass) ==> p.sponsorClass == sponsorClass.value)
      && (!Supplied(sponsorClass) ==> p.sponsorClass == d.sponsorClass)
  {
  }

  /** A patch changes the document exactly when some supplied value differs
      from the stored one; patching twice is patching once. */
  lemma {:induction false} PatchedChanges(d: SponsorDocument, coopDuration: NullableString,
                                          sponsorImageUrl: NullableString, sponsorWebsiteUrl: NullableString,
                                          sponsorClass: NullableString)
    ensures var p := Patched(d, coopDuration, sponsorImageUrl, sponsorWebsiteUrl, sponsorClass);
      && (p == d <==>
            && (Supplied(coopDuration) ==> coopDuration.value == d.coopDuration)
            && (Supplied(sponsorImageUrl) ==> sponsorImageUrl.value == d.sponsorImageUrl)
            && (Supplied(sponsorWebsiteUrl) ==> sponsorWebsiteUrl.value == d.sponsorWebsiteUrl)
            && (Supplied(sponsorClass) ==> sponsorClass.value == d.sponsorClass))
      && Patched(p, coopDuration, sponsorImageUrl, sponsorWebsiteUrl, sponsorClass) == p
  {
  }

  /** `updateSponsor` keeps the length and every name of the collection, patches
      the first document of that name and leaves every other document alone. */
  lemma {:induction false} UpdatedDocsFrame(docs: seq<SponsorDocument>, name: string, coopDuration: NullableString,
                                            sponsorImageUrl: NullableString, sponsorWebsiteUrl: NullableString,
                                            sponsorClass: NullableString)
    ensures var r := UpdatedDocs(docs, name, coopDuration, sponsorImageUrl, sponsorWebsiteUrl, sponsorClass);
      && |r| == |docs|
      && (forall j :: 0 <= j < |docs| ==> r[j].sponsorName == docs[j].sponsorName)
      && (forall j :: 0 <= j < |docs| && FirstMatch(docs, SponsorNameField, name) != Some(j) ==> r[j] == docs[j])
      && ((forall d :: d in docs ==> d.sponsorName != name) ==> r == docs)
  {
  }

  /** The argument a field of `updateSponsor` is set from. */
  function Argument(f: DocField, coopDuration: NullableString, sponsorImageUrl: NullableString,
                    sponsorWebsiteUrl: NullableString, sponsorClass: NullableString): NullableString
  {
    match f
    case SponsorNameField => None
    case CoopDurationField => coopDuration
    case SponsorImageUrlField => sponsorImageUrl
    case SponsorWebsiteUrlField => sponsorWebsiteUrl
    case SponsorClassField => sponsorClass
  }

  /** The position of a field's conditional `set` in `updateSponsor`; the
      name has none. */
  function SetOrder(f: DocField): nat {
    match f
    case SponsorNameField => 0
    case CoopDurationField => 1
    case SponsorImageUrlField => 2
    case SponsorWebsiteUrlField => 3
    case SponsorClassField => 4
  }

  /** After the first `done` conditional sets, `u` sets field `f` to `arg`
      exactly when its set has run and `arg` is supplied. */
  predicate SetsField(u: Update, done: nat, f: DocField, arg: NullableString) {
    && (f in u <==> 0 < SetOrder(f) <= done && Supplied(arg))
    && (f in u ==> u[f] == arg.value)
  }

  /** After the first `done` conditional sets, `u` sets exactly the supplied
      fields among them, to their arguments, and never the name. */
  predicate SetsOnly(u: Update, done: nat, coopDuration: NullableString, sponsorImageUrl: NullableString,
                     sponsorWebsiteUrl: NullableString, sponsorClass: NullableString)
  {
    && SponsorNameField !in u
    && SetsField(u, done, CoopDurationField, coopDuration)
    && SetsField(u, done, SponsorImageUrlField, sponsorImageUrl)
    && SetsField(u, done, SponsorWebsiteUrlField, sponsorWebsiteUrl)
    && SetsField(u, done, SponsorClassField, sponsorClass)
  }

  /** The next conditional `update.set(f, ...)` extends what the update sets by field `f`. */
  lemma {:induction false} SetsStep(u: Update, done: nat, f: DocField, u': Update,
                                    coopDuration: NullableString, sponsorImageUrl: NullableString,
                                    sponsorWebsiteUrl: NullableString, sponsorClass: NullableString)
    requires SetsOnly(u, done, coopDuration, sponsorImageUrl, sponsorWebsiteUrl, sponsorClass)
    requires SetOrder(f) == done + 1
    requires var a := Argument(f, coopDuration, sponsorImageUrl, sponsorWebsiteUrl, sponsorClass);
      && (Supplied(a) ==> u' == u[f := a.value])
      && (!Supplied(a) ==> u' == u)
    ensures SetsOnly(u', done + 1, coopDuration, sponsorImageUrl, sponsorWebsiteUrl, sponsorClass)
  {
  }

  /** The update built from the supplied fields patches a document as `Patched` says. */
  lemma {:induction false} ApplySupplied(d: SponsorDocument, u: Update, coopDuration: NullableString,
                                         sponsorImageUrl: NullableString, sponsorWebsiteUrl: NullableString,
                                         sponsorClass: NullableString)
    requires SetsOnly(u, 4, coopDuration, sponsorImageUrl, sponsorWebsiteUrl, sponsorClass)
    ensures Apply(d, u) == Patched(d, coopDuration, sponsorImageUrl, sponsorWebsiteUrl, sponsorClass)
  {
    assert SponsorNameField !in u;
  }

  /** `updateFirst` with the update built from the supplied fields yields the
      collection `UpdatedDocs` describes. */
  lemma {:induction false} UpdateFirstPatches(docs: seq<SponsorDocument>, name: string, u: Update,
                                              coopDuration: NullableString, sponsorImageUrl: NullableString,
                                              sponsorWebsiteUrl: NullableString, sponsorClass: NullableString)
    requires SetsOnly(u, 4, coopDuration, sponsorImageUrl, sponsorWebsiteUrl, sponsorClass)
    ensures UpdateFirst(docs, SponsorNameField, name, u).docs ==
            UpdatedDocs(docs, name, coopDuration, sponsorImageUrl, sponsorWebsiteUrl, sponsorClass)
  {
  }

  /** The repository holds the sponsor collection in place of a MongoTemplate. */
  class SponsorRepository {
    /** The documents of the collection, in natural order. */
    var docs: seq<SponsorDocument>

    constructor(initial: seq<SponsorDocument>)
      ensures docs == initial
    {
      docs := initial;
    }

    /** `createSponsor`: saves the sponsor as a new document and returns it. */
    method CreateSponsor(sponsor: Sponsor) returns (saved: Sponsor)
      modifies this
      ensures docs == old(docs) + [ToDocument(sponsor)]
      ensures saved == sponsor
    {
      docs := docs + [ToDocument(sponsor)];
      saved := sponsor;
    }

    /** `findSponsorByName`: the first document whose name is exactly `name`. */
    method FindSponsorByName(name: string) returns (r: Option<SponsorDocument>)
      ensures r.Some? ==> r.value in docs && r.value.sponsorName == name
      ensures r.None? <==> forall d :: d in docs ==> d.sponsorName != name
      ensures r.Some? ==> exists k :: 0 <= k < |docs| && docs[k] == r.value &&
                                      forall j :: 0 <= j < k ==> docs[j].sponsorName != name
    {
      r := FindOne(docs, SponsorNameField, name);
      if r.Some? {
        var k := FirstMatch(docs, SponsorNameField, name).value;
        assert docs[k] == r.value;
      }
    }

    /** `findSponsorsByClass`: every document whose stored class is `sponsorClass`. */
    method FindSponsorsByClass(sponsorClass: string) returns (r: seq<SponsorDocument>)
      ensures forall d :: d in r <==> d in docs && d.sponsorClass == sponsorClass
      ensures forall d :: multiset(r)[d] == if d.sponsorClass == sponsorClass then multiset(docs)[d] else 0
    {
      r := Find(docs, SponsorClassField, sponsorClass);
    }

    /** `findSponsorsByCoopDuration`: every document whose stored duration is `coopDuration`. */
    method FindSponsorsByCoopDuration(coopDuration: string) returns (r: seq<SponsorDocument>)
      ensures forall d :: d in r <==> d in docs && d.coopDuration == coopDuration
      ensures forall d :: multiset(r)[d] == if d.coopDuration == coopDuration then multiset(docs)[d] else 0
    {
      r := Find(docs, CoopDurationField, coopDuration);
    }

    /** `deleteSponsorByName`: removes every document of that name; true iff one was removed. */
    method DeleteSponsorByName(name: string) returns (deleted: bool)
      modifies this
      ensures deleted <==> exists d :: d in old(docs) && d.sponsorName == name
      ensures docs == Remove(old(docs), SponsorNameField, name)
      ensures forall d :: d in docs <==> d in old(docs) && d.sponsorName != name
      ensures forall d :: multiset(docs)[d] == if d.sponsorName == name then 0 else multiset(old(docs))[d]
    {
      var remaining := Remove(docs, SponsorNameField, name);
      RemoveCount(docs, SponsorNameField, name);
      var deletedCount := |docs| - |remaining|;
      docs := remaining;
      deleted := deletedCount > 0;
    }

    /** `updateSponsor`: builds an update from the supplied fields (never the
        name) and applies it to the first document of that name; true iff that
        document changed. */
    method UpdateSponsor(name: string, coopDuration: NullableString, sponsorImageUrl: NullableString,
                         sponsorWebsiteUrl: NullableString, sponsorClass: NullableString)
      returns (updated: bool)
      modifies this
      ensures docs == UpdatedDocs(old(docs), name, coopDuration, sponsorImageUrl, sponsorWebsiteUrl, sponsorClass)
      ensures updated <==> docs != old(docs)
    {
      var update: Update := map[];
      if Supplied(coopDuration) {
        update := update[CoopDurationField := coopDuration.value];
      }
      SetsStep(map[], 0, CoopDurationField, update,
               coopDuration, sponsorImageUrl, sponsorWebsiteUrl, sponsorClass);
      ghost var before := update;
      if Supplied(sponsorImageUrl) {
        update := update[SponsorImageUrlField := sponsorImageUrl.value];
      }
      SetsStep(before, 1, SponsorImageUrlField, update,
               coopDuration, sponsorImageUrl, sponsorWebsiteUrl, sponsorClass);
      before := update;
      if Supplied(sponsorWebsiteUrl) {
        update := update[SponsorWebsiteUrlField := sponsorWebsiteUrl.value];
      }
      SetsStep(before, 2, SponsorWebsiteUrlField, update,
               coopDuration, sponsorImageUrl, sponsorWebsiteUrl, sponsorClass);
      before := update;
      if Supplied(sponsorClass) {
        update := update[SponsorClassField := sponsorClass.value];
      }
      SetsStep(before, 3, SponsorClassField, update,
               coopDuration, sponsorImageUrl, sponsorWebsiteUrl, sponsorClass);
      UpdateFirstPatches(docs, name, update, coopDuration, sponsorImageUrl, sponsorWebsiteUrl, sponsorClass);
      var result := UpdateFirst(docs, SponsorNameField, name, update);
      docs := result.docs;
      updated := result.modifiedCount > 0;
    }
  }
}
