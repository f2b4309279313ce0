/** The observable effect of the document-store operations the repository uses,
    over a collection held as a sequence in natural (insertion) order. A query
    is one equality criterion `Criteria.where(f).is(v)`. */
module Mongo {
  import opened Wrappers
  import opened Model

  predicate Matches(d: SponsorDocument, f: DocField, v: string) {
    FieldValue(d, f) == v
  }

  /** `find(query)`: every matching document, each as often as it is stored. */
  function Find(docs: seq<SponsorDocument>, f: DocField, v: string): (r: seq<SponsorDocument>)
    ensures forall d :: d in r <==> d in docs && Matches(d, f, v)
    ensures forall d :: multiset(r)[d] == if Matches(d, f, v) then multiset(docs)[d] else 0
    ensures |r| <= |docs|
  {
    if docs == [] then []
    else
      var rest := Find(docs[1..], f, v);
      assert docs == [docs[0]] + docs[1..];
      if Matches(docs[0], f, v) then [docs[0]] + rest else rest
  }

  /** Position of the first matching document in natural order. */
  function FirstMatch(docs: seq<SponsorDocument>, f: DocField, v: string): (r: Option<nat>)
    ensures r.Some? ==> r.value < |docs| && Matches(docs[r.value], f, v)
    ensures r.Some? ==> forall j :: 0 <= j < r.value ==> !Matches(docs[j], f, v)
    ensures r.None? <==> forall j :: 0 <= j < |docs| ==> !Matches(docs[j], f, v)
  {
    if docs == [] then None
    else if Matches(docs[0], f, v) then Some(0)
    else
      match FirstMatch(docs[1..], f, v)
      case None => None
      case Some(k) => Some(k + 1)
  }

  /** `findOne(query)`: the first matching document, or null. */
  function FindOne(docs: seq<SponsorDocument>, f: DocField, v: string): (r: Option<SponsorDocument>)
    ensures r.Some? ==> r.value in docs && Matches(r.value, f, v)
    ensures r.None? <==> forall d :: d in docs ==> !Matches(d, f, v)
  {
    match FirstMatch(docs, f, v)
    case None => None
    case Some(k) => Some(docs[k])
  }

  /** The documents left by `remove(query)`, which deletes every match. */
  function Remove(docs: seq<SponsorDocument>, f: DocField, v: string): (r: seq<SponsorDocument>)
    ensures forall d :: d in r <==> d in docs && !Matches(d, f, v)
    ensures forall d :: multiset(r)[d] == if Matches(d, f, v) then 0 else multiset(docs)[d]
    ensures |r| + |Find(docs, f, v)| == |docs|
  {
    if docs == [] then []
    else
      var rest := Remove(docs[1..], f, v);
      assert docs == [docs[0]] + docs[1..];
      if Matches(docs[0], f, v) then rest else [docs[0]] + rest
  }

  /** The deleted count that `remove(query)` reports is positive exactly when
      some document matched. */
  lemma {:induction false} RemoveCount(docs: seq<SponsorDocument>, f: DocField, v: string)
    ensures |Remove(docs, f, v)| < |docs| <==> exists d :: d in docs && Matches(d, f, v)
  {
  }

  /** An `Update`: the `set(field, value)` calls made on it, the last value per field. */
  type Update = map<DocField, string>

  /** `$set` applied to one document: a field named in `u` takes its value, every
      other field keeps its own. */
  function Apply(d: SponsorDocument, u: Update): (r: SponsorDocument)
    ensures forall f :: FieldValue(r, f) == if f in u then u[f] else FieldValue(d, f)
  {
    SponsorDocument(
      if SponsorNameField in u then u[SponsorNameField] else d.sponsorName,
      if CoopDurationField in u then u[CoopDurationField] else d.coopDuration,
      if SponsorImageUrlField in u then u[SponsorImageUrlField] else d.sponsorImageUrl,
      if SponsorWebsiteUrlField in u then u[SponsorWebsiteUrlField] else d.sponsorWebsiteUrl,
      if SponsorClassField in u then u[SponsorClassField] else d.sponsorClass)
  }

  datatype UpdateResult = UpdateResult(docs: seq<SponsorDocument>, modifiedCount: nat)

  /** `updateFirst(query, update)`: applies the update to the first match only;
      the modified count is that of documents whose contents actually changed. */
  function UpdateFirst(docs: seq<SponsorDocument>, f: DocField, v: string, u: Update): (r: UpdateResult)
    ensures |r.docs| == |docs| && r.modifiedCount <= 1
    ensures r.modifiedCount > 0 <==> r.docs != docs
    ensures forall j :: 0 <= j < |docs| && FirstMatch(docs, f, v) != Some(j) ==> r.docs[j] == docs[j]
    ensures FirstMatch(docs, f, v).Some? ==>
              r.docs[FirstMatch(docs, f, v).value] == Apply(docs[FirstMatch(docs, f, v).value], u)
  {
    match FirstMatch(docs, f, v)
    case None => UpdateResult(docs, 0)
    case Some(k) =>
      var patched := Apply(docs[k], u);
      if patched == docs[k] then
        assert docs[k := patched] == docs;
        UpdateResult(docs, 0)
      else
        assert docs[k := patched][k] != docs[k];
        UpdateResult(docs[k := patched], 1)
  }
}
