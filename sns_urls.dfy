/**
 * The per-platform base URLs of src/lib/utils.ts. A link type is the string
 * tag the link record carries ("instagram", "custom", ...).
 */
module SnsUrls {
  /** The link types whose profile URLs `SnsUrl` knows. */
  predicate IsSnsType(linkType: string) {
    linkType == "instagram" || linkType == "facebook" || linkType == "threads"
  }

  /** The wider set of link types whose profile URLs `SnsUrlPlus` knows. */
  predicate IsSnsTypePlus(linkType: string) {
    || IsSnsType(linkType)
    || linkType == "x" || linkType == "tiktok" || linkType == "naver" || linkType == "github"
  }

  /**
   * getSnsUrl: the profile base URL of an SNS link type. Only instagram,
   * facebook and threads have one, a secure www address that ends in '/';
   * every other type, "custom" included, gets the empty string.
   */
  function SnsUrl(linkType: string): (base: string)
    ensures base != "" <==> IsSnsType(linkType)
    ensures base != "" ==> |base| > 12 && base[..12] == "https://www." && base[|base| - 1] == '/'
  {
    match linkType
    case "instagram" => "https://www.instagram.com/"
    case "facebook" => "https://www.facebook.com/"
    case "threads" => "https://www.threads.net/"
    case _ => ""
  }

  /**
   * getSnsUrlPlus: the same lookup over the wider set of types. It agrees
   * with `SnsUrl` wherever that one has a URL, adds x, tiktok, naver and
   * github, and gives the empty string for every other type. Every URL ends
   * in '/', and all but tiktok's (written without a scheme) are https.
   */
  function SnsUrlPlus(linkType: string): (base: string)
    ensures SnsUrl(linkType) != "" ==> base == SnsUrl(linkType)
    ensures base != "" <==> IsSnsTypePlus(linkType)
    ensures base != "" ==> base[|base| - 1] == '/'
    ensures base != "" && linkType != "tiktok" ==> |base| > 8 && base[..8] == "https://"
  {
    match linkType
    case "instagram" => "https://www.instagram.com/"
    case "facebook" => "https://www.facebook.com/"
    case "threads" => "https://www.threads.net/"
    case "x" => "https://x.com/"
    case "tiktok" => "tiktok.com/"
    case "naver" => "https://blog.naver.com/"
    case "github" => "https://github.com/"
    case _ => ""
  }

  /** Different types never share a base URL. */
  lemma SnsUrlPlusInjective(a: string, b: string)
    requires SnsUrlPlus(a) != "" && SnsUrlPlus(a) == SnsUrlPlus(b)
    ensures a == b
  {
  }
}
