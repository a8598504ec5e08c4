/**
 * URL construction of the OSF JSON:API adapter (addon/adapters/osf-adapter.js):
 * `buildURL`, which prefers the record's own `links.self` and forces a trailing
 * slash, and `_buildRelationshipURL`, which prefers the relationship's links.
 */
module AdapterUrls {
  import opened Common

  /** `s.lastIndexOf(c)`: the largest index holding `c`, or -1 when there is none. */
  function LastIndexOf(s: string, c: char): (r: int)
    ensures -1 <= r < |s|
    ensures r >= 0 ==> s[r] == c
    ensures forall i :: r < i < |s| ==> s[i] != c
  {
    if s == [] then -1
    else if s[|s| - 1] == c then |s| - 1
    else LastIndexOf(s[..|s| - 1], c)
  }

  predicate EndsWithSlash(url: string) {
    url != [] && url[|url| - 1] == '/'
  }

  /**
   * The trailing-slash fix of `buildURL`: a slash is appended unless the last
   * slash is at the last index. For the empty string `lastIndexOf` gives -1,
   * which equals `length - 1`, so the empty string is left alone.
   */
  function AppendTrailingSlash(url: string): (r: string)
    ensures r == if url == [] || EndsWithSlash(url) then url else url + "/"
    ensures url != [] ==> EndsWithSlash(r)
  {
    if LastIndexOf(url, '/') != |url| - 1 then url + "/" else url
  }

  /** Normalising twice is normalising once, and at most one character is added. */
  lemma AppendTrailingSlashIdempotent(url: string)
    ensures AppendTrailingSlash(AppendTrailingSlash(url)) == AppendTrailingSlash(url)
    ensures |url| <= |AppendTrailingSlash(url)| <= |url| + 1
  {
  }

  /** The request types for which the record's `links.self` replaces the built URL. */
  const SelfLinkRequestTypes: set<string> := {"deleteRecord", "updateRecord", "findRecord"}

  /**
   * `buildURL(modelName, id, snapshot, requestType)`. `superUrl` is what the
   * JSON:API base adapter builds for the same arguments and `selfLink` is the
   * record's `links.self`.
   */
  function BuildURL(superUrl: string, requestType: string, selfLink: Option<string>): (r: string)
    ensures requestType in SelfLinkRequestTypes && Truthy(selfLink) ==>
              r == AppendTrailingSlash(selfLink.value)
    ensures !(requestType in SelfLinkRequestTypes && Truthy(selfLink)) ==>
              r == AppendTrailingSlash(superUrl)
    ensures r == [] || EndsWithSlash(r)
  {
    var url := if requestType in SelfLinkRequestTypes && Truthy(selfLink) then selfLink.value else superUrl;
    AppendTrailingSlash(url)
  }

  datatype Link = Link(href: string)

  /** A relationship's `links` object; `self` and `related` may each be missing. */
  datatype RelationshipLinks = RelationshipLinks(self: Option<Link>, related: Option<Link>)

  /**
   * `_buildRelationshipURL(..., relationship)`. `relationshipLinks` holds the
   * record's `relationshipLinks.<name>.links` objects by relationship name.
   * A links object with neither `self` nor `related` makes `links.related.href`
   * read a property of `undefined`, which throws.
   */
  function BuildRelationshipURL(superUrl: string, requestType: string, selfLink: Option<string>,
                                relationship: string,
                                relationshipLinks: map<string, RelationshipLinks>): (r: Result<string>)
    ensures relationship == "" || relationship !in relationshipLinks ==>
              r == Ok(BuildURL(superUrl, requestType, selfLink))
    ensures relationship != "" && relationship in relationshipLinks &&
            relationshipLinks[relationship].self.Some? ==>
              r == Ok(relationshipLinks[relationship].self.value.href)
    ensures relationship != "" && relationship in relationshipLinks &&
            relationshipLinks[relationship].self.None? && relationshipLinks[relationship].related.Some? ==>
              r == Ok(relationshipLinks[relationship].related.value.href)
    ensures r.Err? <==>
              relationship != "" && relationship in relationshipLinks &&
              relationshipLinks[relationship].self.None? && relationshipLinks[relationship].related.None?
  {
    if relationship != "" && relationship in relationshipLinks then
      var links := relationshipLinks[relationship];
      if links.self.Some? then Ok(links.self.value.href)
      else if links.related.Some? then Ok(links.related.value.href)
      else Err(TypeError("href"))
    else
      Ok(BuildURL(superUrl, requestType, selfLink))
  }
}
