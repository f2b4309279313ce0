/** UrlChecker: scheme normalisation and the verdict of a reachability probe.
    The probe itself (URL parsing, redirects off, a HEAD request) is an oracle. */
module UrlCheck {
  import opened Wrappers

  /** `String.startsWith(prefix)` */
  predicate StartsWith(s: string, prefix: string) {
    |prefix| <= |s| && s[..|prefix|] == prefix
  }

  predicate HasScheme(url: string) {
    StartsWith(url, "http://") || StartsWith(url, "https://")
  }

  /** The scheme normalisation at the head of `isValidUrl`. */
  function Normalise(url: string): (r: string)
    ensures HasScheme(r)
    ensures r == url <==> HasScheme(url)
    ensures !HasScheme(url) ==> r == "https://" + url
  {
    if !StartsWith(url, "http://") && !StartsWith(url, "https://") then
      assert ("https://" + url)[..|"https://"|] == "https://";
      "https://" + url
    else
      url
  }

  /** A normalised URL is its own normal form. */
  lemma {:induction false} NormaliseIdempotent(url: string)
    ensures Normalise(Normalise(url)) == Normalise(url)
  {
  }

  /** What the probe of a URL comes to: a response code, or an exception from
      `new URL`, `openConnection` or `getResponseCode`. */
  datatype ProbeOutcome = Responded(code: int) | Threw

  /** The IOException that `isValidUrl` lets escape. */
  datatype ProbeException = ProbeException

  /** The UrlChecker object: the probe's verdict and the normalised URL. */
  datatype UrlChecker = UrlChecker(valid: bool, url: string) {
    function IsValid(): bool {
      valid
    }

    function GetUrl(): string {
      url
    }
  }

  /** A probe that answers 200 counts as reachable. */
  predicate Reachable(url: string, probe: string -> ProbeOutcome) {
    probe(Normalise(url)) == Responded(200)
  }

  /** `UrlChecker.isValidUrl`: normalise, probe the normalised URL, and record
      whether the response code was exactly 200. */
  function IsValidUrl(imgUrl: string, probe: string -> ProbeOutcome): (r: Result<UrlChecker, ProbeException>)
    ensures r.Failure? <==> probe(Normalise(imgUrl)) == Threw
    ensures r.Success? ==> r.value.GetUrl() == Normalise(imgUrl)
    ensures r.Success? ==> (r.value.IsValid() <==> Reachable(imgUrl, probe))
  {
    var url := Normalise(imgUrl);
    match probe(url)
    case Threw => Failure(ProbeException)
    case Responded(code) => Success(UrlChecker(code == 200, url))
  }
}
