# Sponsor directory: validation and normalisation core

This project models the core of a sponsor directory backend in Dafny. A sponsor has a name, a co-op duration
(`QUARTER_YEAR` or `FULL_YEAR`), an image URL, a website URL and a class (`PLATINUM`, `GOLD` or `SILVER`). The
modelled core has three parts:

- `SponsorService` runs fail-fast checks before it writes anything. The checks are presence, name uniqueness or
  existence, membership of the two enumerations, and URL normalisation with a reachability probe.
- `SponsorRepository` keeps the sponsor collection. It creates, looks up by name, class or duration, deletes by
  name, and does a partial update by name.
- `UrlChecker` puts `https://` in front of a URL that has no `http://` or `https://` scheme, and records whether the
  probe answered 200.

Modules, one per file:

- `Wrappers` (`wrappers.dfy`): `Option` (null, empty `Optional`) and `Result` (value or thrown exception).
- `Model` (`model.dfy`): the `Sponsor` object and its two enumerations, with `valueOf` as `ParseCoopDuration` and
  `ParseSponsorClass`. It also holds `SponsorDocument`, the stored form of a sponsor, which keeps the enumeration
  constants as their names. That is why the repository's queries and updates work on plain strings.
- `Mongo` (`mongo.dfy`): what the document store visibly does, over a collection held as a sequence in natural
  order. This covers `find`, `findOne`, `remove`, `$set` and `updateFirst`, including the modified count.
- `UrlCheck` (`url_check.dfy`): `Normalise`, the `UrlChecker` value with `IsValid`/`GetUrl`, and `IsValidUrl`. The
  network probe is a parameter `probe: string -> ProbeOutcome` that answers a response code or `Threw`.
- `Repository` (`repository.dfy`): class `SponsorRepository`, whose field `docs` is the collection its methods
  change. `Patched` and `UpdatedDocs` say what a partial update leaves in the collection.
- `Service` (`service.dfy`): the error taxonomy and its exact messages, and the two workflows as functions of the
  collection and the arguments (`CreateOutcome`, `UpdateValidation`). It also holds the collection invariant
  (unique names, enumeration strings that name constants, URLs with a scheme) and class `SponsorService`. Its
  `CreateSponsor` and `UpdateSponsor` run the checks step by step, reassigning the URL variables as the service
  does, and are proved equal to `CreateOutcome` and `UpdateValidation`. Its find and delete methods state their
  results directly, in terms of the repository's collection.

The code has two messages for each URL, "connection failed" and "format error", but only the second can escape,
and the model follows the code. In both `createSponsor` and `updateSponsor`, the "connection failed" exception (probe answered other than 200) is thrown
inside a `try` whose `catch (Exception e)` catches it again. It is rethrown as "format error", so an unreachable
URL and a probe that threw both end in `UrlFormatError`. `TryUrl` keeps the two cases apart, as the `try` block
does. `CheckUrl` and every workflow see only the format error.

## Model

| member | source | states |
|---|---|---|
| `Model.ParseCoopDuration` | src/main/java/ca/mcgillcssa/cssabackend/service/SponsorService.java:89-94 | `valueOf` finds the constant whose name is exactly the string (case-sensitive), and finds nothing exactly when no constant has that name |
| `Model.ParseSponsorClass` | src/main/java/ca/mcgillcssa/cssabackend/service/SponsorService.java:96-101 | as above, for the three class names |
| `Model.ParseNames` | src/main/java/ca/mcgillcssa/cssabackend/service/SponsorService.java:91 | parsing a constant's name gives the constant back |
| `Model.ToDocument` | src/main/java/ca/mcgillcssa/cssabackend/repository/SponsorRepository.java:32-34 | the document a save writes reads back as the same sponsor and keeps its name |
| `Model.FromDocument` | src/main/java/ca/mcgillcssa/cssabackend/repository/SponsorRepository.java:42-45 | a stored document reads back as a sponsor exactly when both enumeration strings name constants; the sponsor then has the document's name and URLs and the constants of those names |
| `Model.FromDocumentInverse` | src/main/java/ca/mcgillcssa/cssabackend/repository/SponsorRepository.java:42-45 | a document that reads back as a sponsor is that sponsor's document |
| `Mongo.Find` | src/main/java/ca/mcgillcssa/cssabackend/repository/SponsorRepository.java:62-64 | a query returns exactly the matching documents, each as many times as it is stored |
| `Mongo.FirstMatch` | src/main/java/ca/mcgillcssa/cssabackend/repository/SponsorRepository.java:43-44 | the position of the first matching document; none exactly when no document matches |
| `Mongo.FindOne` | src/main/java/ca/mcgillcssa/cssabackend/repository/SponsorRepository.java:42-45 | `findOne` returns a stored matching document, or nothing exactly when none matches |
| `Mongo.Remove` | src/main/java/ca/mcgillcssa/cssabackend/repository/SponsorRepository.java:83-84 | `remove` leaves exactly the non-matching documents with their multiplicities; the number deleted equals the number of matches |
| `Mongo.RemoveCount` | src/main/java/ca/mcgillcssa/cssabackend/repository/SponsorRepository.java:85 | the deleted count is positive exactly when some document matched |
| `Mongo.Apply` | src/main/java/ca/mcgillcssa/cssabackend/repository/SponsorRepository.java:101-117 | `$set` gives each field named in the update its value and leaves every other field alone |
| `Mongo.UpdateFirst` | src/main/java/ca/mcgillcssa/cssabackend/repository/SponsorRepository.java:119-120 | `updateFirst` changes at most the first matching document and nothing else; the modified count is at most 1 and is positive exactly when the collection changed |
| `Repository.Patched` | src/main/java/ca/mcgillcssa/cssabackend/repository/SponsorRepository.java:101-117 | the document as the partial update leaves it: each non-null, non-empty field replaced, the name never; its properties are `PatchedFields` and `PatchedChanges` |
| `Repository.UpdatedDocs` | src/main/java/ca/mcgillcssa/cssabackend/repository/SponsorRepository.java:100-120 | the collection after the partial update: the first document of that name patched, every other one as it was; its properties are `UpdatedDocsFrame` and `UpdateFirstPatches` |
| `UrlCheck.Normalise` | src/main/java/ca/mcgillcssa/cssabackend/util/UrlChecker.java:27-29 | the result always has an `http://` or `https://` scheme; the URL is left unchanged exactly when it already had one; otherwise `https://` is put in front |
| `UrlCheck.NormaliseIdempotent` | src/main/java/ca/mcgillcssa/cssabackend/util/UrlChecker.java:27-29 | normalising twice gives the same as normalising once |
| `UrlCheck.UrlChecker.IsValid` | src/main/java/ca/mcgillcssa/cssabackend/util/UrlChecker.java:37-39 | the getter of the probe's verdict; what the verdict means is fixed by `IsValidUrl` |
| `UrlCheck.UrlChecker.GetUrl` | src/main/java/ca/mcgillcssa/cssabackend/util/UrlChecker.java:41-43 | the getter of the checked URL; that it is the normalised URL is fixed by `IsValidUrl` |
| `UrlCheck.IsValidUrl` | src/main/java/ca/mcgillcssa/cssabackend/util/UrlChecker.java:26-35 | fails exactly when the probe of the normalised URL threw; otherwise `getUrl` is the normalised URL and `isValid` holds exactly when the response code is 200 |
| `Repository.PatchedFields` | src/main/java/ca/mcgillcssa/cssabackend/repository/SponsorRepository.java:100-117 | a partial update never changes the name; each non-null, non-empty field is set to its value and every other field keeps its value |
| `Repository.PatchedChanges` | src/main/java/ca/mcgillcssa/cssabackend/repository/SponsorRepository.java:119-120 | a partial update changes a document exactly when some supplied value differs from the stored one; applying it twice is applying it once |
| `Repository.UpdatedDocsFrame` | src/main/java/ca/mcgillcssa/cssabackend/repository/SponsorRepository.java:119 | the update keeps the collection's length and every name; only the first document of that name can change, and nothing changes when no document has that name |
| `Repository.SetsStep` | src/main/java/ca/mcgillcssa/cssabackend/repository/SponsorRepository.java:103-117 | each conditional `set` extends the update by its field exactly when that argument is supplied |
| `Repository.ApplySupplied` | src/main/java/ca/mcgillcssa/cssabackend/repository/SponsorRepository.java:101-117 | the update built from the supplied fields patches a document field for field as the partial update says |
| `Repository.UpdateFirstPatches` | src/main/java/ca/mcgillcssa/cssabackend/repository/SponsorRepository.java:101-119 | `updateFirst` with that update leaves the collection the partial update describes |
| `Repository.SponsorRepository.constructor` | src/main/java/ca/mcgillcssa/cssabackend/repository/SponsorRepository.java:22-24 | the repository starts with the given collection |
| `Repository.SponsorRepository.CreateSponsor` | src/main/java/ca/mcgillcssa/cssabackend/repository/SponsorRepository.java:32-34 | adds the sponsor's document at the end of the collection and returns the sponsor |
| `Repository.SponsorRepository.FindSponsorByName` | src/main/java/ca/mcgillcssa/cssabackend/repository/SponsorRepository.java:42-45 | returns the first stored document whose name is exactly the argument, or nothing exactly when there is none |
| `Repository.SponsorRepository.FindSponsorsByClass` | src/main/java/ca/mcgillcssa/cssabackend/repository/SponsorRepository.java:62-64 | returns exactly the documents whose stored class equals the string, with multiplicity |
| `Repository.SponsorRepository.FindSponsorsByCoopDuration` | src/main/java/ca/mcgillcssa/cssabackend/repository/SponsorRepository.java:72-74 | returns exactly the documents whose stored duration equals the string, with multiplicity |
| `Repository.SponsorRepository.DeleteSponsorByName` | src/main/java/ca/mcgillcssa/cssabackend/repository/SponsorRepository.java:82-86 | removes every document of that name and keeps the rest; returns true exactly when one existed; a missing name gives false, not an error |
| `Repository.SponsorRepository.UpdateSponsor` | src/main/java/ca/mcgillcssa/cssabackend/repository/SponsorRepository.java:98-121 | the new collection is the partial update applied to the first document of that name; returns true exactly when the collection changed |
| `Service.Message` | src/main/java/ca/mcgillcssa/cssabackend/service/SponsorService.java:45-237 | the exact text of each exception the service throws; `MessagesDistinct` states what it guarantees |
| `Service.MessagesDistinct` | src/main/java/ca/mcgillcssa/cssabackend/service/SponsorService.java:45-237 | any two different errors the service can raise have different messages, so the text alone tells which check failed |
| `Service.TryUrl` | src/main/java/ca/mcgillcssa/cssabackend/service/SponsorService.java:71-75 | inside the `try`, a response other than 200 is "connection failed" and a probe that threw is the I/O exception; success yields the normalised URL |
| `Service.CheckUrl` | src/main/java/ca/mcgillcssa/cssabackend/service/SponsorService.java:70-78 | the URL passes exactly when the probe answered 200 and is then the normalised URL; any failure is that field's format error |
| `Service.CheckOptionalUrl` | src/main/java/ca/mcgillcssa/cssabackend/service/SponsorService.java:216-226 | an absent optional URL passes unchanged; a supplied one fails with a format error exactly when the probe did not answer 200, else becomes its normal form |
| `Service.CreateOutcome` | src/main/java/ca/mcgillcssa/cssabackend/service/SponsorService.java:40-105 | a failed create reports only an error create can raise (never "does not exist" or "nothing to be changed"); a successful one had every field present and a free name, and the sponsor carries that name |
| `Service.CreatePresenceOrder` | src/main/java/ca/mcgillcssa/cssabackend/service/SponsorService.java:43-62 | create reports a missing field exactly when that field is the first null or empty one, in the order name, duration, image URL, website URL, class |
| `Service.CreateNameAndUrlChecks` | src/main/java/ca/mcgillcssa/cssabackend/service/SponsorService.java:64-87 | with all fields present: a taken name is a duplicate; then the image URL and after it the website URL fail with a format error, whether the probe gave a non-200 code or threw |
| `Service.CreateEnumChecksAndResult` | src/main/java/ca/mcgillcssa/cssabackend/service/SponsorService.java:89-105 | after the URLs the duration and then the class must name a constant; on success the sponsor holds the name, the parsed constants and the normalised URLs, and its document stores the given strings |
| `Service.CreateSuccessRequiresAllChecks` | src/main/java/ca/mcgillcssa/cssabackend/service/SponsorService.java:40-105 | a successful create had every field present, a free name, both URLs at 200 and both enumeration strings valid |
| `Service.CreateThenFind` | src/main/java/ca/mcgillcssa/cssabackend/service/SponsorService.java:103-105 | after a successful create, looking up the name finds exactly the saved document |
| `Service.CreateDuplicateRejected` | src/main/java/ca/mcgillcssa/cssabackend/service/SponsorService.java:64-67 | a second create under a name just saved fails as a duplicate, whatever its other fields and the probe |
| `Service.CreatePreservesInvariant` | src/main/java/ca/mcgillcssa/cssabackend/service/SponsorService.java:40-105 | a successful create keeps names unique, enumeration strings valid and URLs with a scheme |
| `Service.UpdateValidation` | src/main/java/ca/mcgillcssa/cssabackend/service/SponsorService.java:193-238 | a failed update reports only an error update can raise (never a missing field or a duplicate); a successful validation means the sponsor exists and some field was supplied |
| `Service.UpdateValidationOrder` | src/main/java/ca/mcgillcssa/cssabackend/service/SponsorService.java:193-238 | update checks existence, then "nothing to be changed", then duration, class, image URL, website URL; each error occurs exactly when its check is the first to fail, and absent optional fields never fail |
| `Service.UpdateValidationArgs` | src/main/java/ca/mcgillcssa/cssabackend/service/SponsorService.java:216-241 | a validated update passes on the enumeration strings as given, every supplied URL normalised, and absent fields as they came |
| `Service.UpdateEffect` | src/main/java/ca/mcgillcssa/cssabackend/service/SponsorService.java:240-241 | a validated update gives the first sponsor of that name each supplied field, with URLs normalised; it keeps that sponsor's name and absent fields, and leaves every other sponsor alone |
| `Service.UpdatePreservesInvariant` | src/main/java/ca/mcgillcssa/cssabackend/service/SponsorService.java:191-242 | a validated update keeps names unique, enumeration strings valid and URLs with a scheme |
| `Service.UpdateRepeatIsNoChange` | src/main/java/ca/mcgillcssa/cssabackend/repository/SponsorRepository.java:119-120 | repeating a validated update validates the same way and changes nothing, so the second call reports false |
| `Service.RemoveKeepsUnique` | src/main/java/ca/mcgillcssa/cssabackend/repository/SponsorRepository.java:83-84 | removing documents keeps the remaining names unique |
| `Service.DeletePreservesInvariant` | src/main/java/ca/mcgillcssa/cssabackend/service/SponsorService.java:172-174 | deleting by name keeps the collection invariant |
| `Service.UniqueNameLookup` | src/main/java/ca/mcgillcssa/cssabackend/repository/SponsorRepository.java:42-45 | with unique names, at most one document carries a name, the lookup finds that one, and deleting by it removes exactly one document |
| `Service.SponsorService.constructor` | src/main/java/ca/mcgillcssa/cssabackend/service/SponsorService.java:21-23 | the service holds the given repository |
| `Service.SponsorService.CreateSponsor` | src/main/java/ca/mcgillcssa/cssabackend/service/SponsorService.java:40-106 | the outcome is `CreateOutcome` of the collection before the call; on success exactly one document, the returned sponsor's, is appended; on any failure the collection is unchanged; the invariant is kept |
| `Service.SponsorService.FindSponsorByName` | src/main/java/ca/mcgillcssa/cssabackend/service/SponsorService.java:116-121 | a null or empty name is rejected with the name's missing-field error; otherwise the result is the first stored document of that name, and nothing exactly when there is none |
| `Service.SponsorService.FindSponsorsByClass` | src/main/java/ca/mcgillcssa/cssabackend/service/SponsorService.java:142-147 | fails exactly when the string is not `PLATINUM`, `GOLD` or `SILVER`; otherwise it returns exactly the store's matches |
| `Service.SponsorService.FindSponsorsByCoopDuration` | src/main/java/ca/mcgillcssa/cssabackend/service/SponsorService.java:158-163 | fails exactly when the string is not `QUARTER_YEAR` or `FULL_YEAR`; otherwise it returns exactly the store's matches |
| `Service.SponsorService.DeleteSponsorByName` | src/main/java/ca/mcgillcssa/cssabackend/service/SponsorService.java:172-174 | delegates without a check: true exactly when the name existed; every document of that name is removed; the invariant is kept |
| `Service.SponsorService.UpdateSponsor` | src/main/java/ca/mcgillcssa/cssabackend/service/SponsorService.java:191-242 | on a failed validation the error is returned and nothing is written; otherwise one partial update with the validated arguments, returning whether the collection changed; the invariant is kept |

## Left out

- `SponsorController` is not modelled. It does HTTP routing, shapes response maps and turns exceptions into status codes.
- `findAllSponsors` (service and repository) is not modelled. It is a bare delegation outside the validated core.
- The network probe stands in for `new URL`, `setFollowRedirects(false)`, `openConnection`, the HEAD request and
  `getResponseCode`. It is the parameter `probe`, which answers a response code or "threw". Within one call it
  gives the same answer for the same URL.
- Whether a URL was reachable at its last write is not part of the collection invariant. The probe is an oracle
  of that moment only.
- `wasAcknowledged()` is taken to be true for every delete and update, since the store is in memory.
- An `updateFirst` with an empty `Update` is treated as a no-op that modifies nothing. The driver's own handling
  of an empty update document is not modelled, and the service never sends one.
- Null `sponsorName` in `updateSponsor`/`deleteSponsorByName` is not modelled: those names are non-null strings
  here (`Criteria.is(null)` semantics are left out). The exception that a null argument raises in
  `findSponsorsByClass` and `findSponsorsByCoopDuration` is left out too.
- The propagation of `IOException` and `DataAccessException` from the store is not modelled.
- The Spring mapping of a stored document back into a `Sponsor` object is not modelled. Lookups return the
  stored document. Under the collection invariant every stored document reads back as a sponsor (`Conforms`).
- Document ids and `save` as an upsert are not modelled. The model has no id, so every save of a new sponsor
  is an insert.
- Concurrency between requests is not modelled, nor the duplicate-name race it allows.
- Mongo.Find: states the result with multiplicity, but not that it keeps collection order.
- Repository.SponsorRepository.FindSponsorsByClass: states the result with multiplicity, but not its order.
- Repository.SponsorRepository.FindSponsorsByCoopDuration: states the result with multiplicity, but not its order.
- `Sponsor` and `SponsorDTO` are not part of this model beyond the five fields and the two enumerations.
