/**
 * Link classification shared by the site analyser and the suggestion engine
 * (both route files carry the same `startsWith` / `includes` tests on the
 * `href` value of every `<a ... href=...>` match). A link is given as the
 * result of that inner match: `None` when the case-sensitive inner pattern
 * finds nothing (an upper-case `HREF=` that only the outer, case-insensitive
 * pattern accepted), and the filters then return `false`.
 */
module Links {
  import opened Text
  import opened Wrappers

  /** `href.startsWith('/') || href.includes(domain)`. */
  predicate IsInternal(href: string, domain: string) {
    StartsWith(href, "/") || Contains(href, domain)
  }

  /** `href.startsWith('http') && !href.includes(domain)`. */
  predicate IsExternal(href: string, domain: string) {
    StartsWith(href, "http") && !Contains(href, domain)
  }

  /** The internal-link filter on one link: `false` when the inner match fails. */
  predicate InternalLink(href: Option<string>, domain: string) {
    href.Some? && IsInternal(href.value, domain)
  }

  /** The external-link filter on one link: `false` when the inner match fails. */
  predicate ExternalLink(href: Option<string>, domain: string) {
    href.Some? && IsExternal(href.value, domain)
  }

  /** The length of `links.filter(InternalLink)`. */
  function CountInternal(hrefs: seq<Option<string>>, domain: string): (n: nat)
    ensures n <= |hrefs|
  {
    if hrefs == [] then 0
    else CountInternal(hrefs[..|hrefs| - 1], domain) + (if InternalLink(hrefs[|hrefs| - 1], domain) then 1 else 0)
  }

  /** The length of `links.filter(ExternalLink)`. */
  function CountExternal(hrefs: seq<Option<string>>, domain: string): (n: nat)
    ensures n <= |hrefs|
  {
    if hrefs == [] then 0
    else CountExternal(hrefs[..|hrefs| - 1], domain) + (if ExternalLink(hrefs[|hrefs| - 1], domain) then 1 else 0)
  }

  /** A link whose inner `href` match fails counts toward the total but is neither internal nor external. */
  lemma UnmatchedUnclassified(hrefs: seq<Option<string>>, domain: string)
    ensures CountInternal(hrefs + [None], domain) == CountInternal(hrefs, domain)
    ensures CountExternal(hrefs + [None], domain) == CountExternal(hrefs, domain)
    ensures |hrefs + [None]| == |hrefs| + 1
  {
    assert (hrefs + [None])[..|hrefs|] == hrefs;
  }

  /** No href is both internal and external. */
  lemma Disjoint(href: string, domain: string)
    ensures !(IsInternal(href, domain) && IsExternal(href, domain))
  {
    if StartsWith(href, "/") {
      assert href[0] == "/"[0];
      assert !StartsWith(href, "http");
    }
  }

  /** A link that starts with neither `/` nor `http` and does not mention the domain (a `mailto:` link, say) is in neither class. */
  lemma Unclassified(href: string, domain: string)
    requires !StartsWith(href, "/") && !StartsWith(href, "http") && !Contains(href, domain)
    ensures !IsInternal(href, domain) && !IsExternal(href, domain)
  {
  }

  /** A root-relative link (`/` followed by anything) is internal and not external. */
  lemma RootRelativeInternal(rest: string, domain: string)
    ensures IsInternal("/" + rest, domain) && !IsExternal("/" + rest, domain)
  {
    PrefixOfConcat("/", rest);
    Disjoint("/" + rest, domain);
  }

  /** An absolute `http` link is internal exactly when it mentions the domain, and external otherwise. */
  lemma AbsoluteLinkClass(rest: string, domain: string)
    ensures IsInternal("http" + rest, domain) <==> Contains("http" + rest, domain)
    ensures IsExternal("http" + rest, domain) <==> !Contains("http" + rest, domain)
  {
    var href := "http" + rest;
    PrefixOfConcat("http", rest);
    assert href[0] == 'h';
    assert !StartsWith(href, "/");
  }

  /** Because the classes are disjoint, `internal + external <= total`. */
  lemma {:induction false} InternalPlusExternal(hrefs: seq<Option<string>>, domain: string)
    ensures CountInternal(hrefs, domain) + CountExternal(hrefs, domain) <= |hrefs|
  {
    if hrefs != [] {
      InternalPlusExternal(hrefs[..|hrefs| - 1], domain);
      if hrefs[|hrefs| - 1].Some? {
        Disjoint(hrefs[|hrefs| - 1].value, domain);
      }
    }
  }

  /** The internal count is positive exactly when some href is internal. */
  lemma {:induction false} CountInternalPositive(hrefs: seq<Option<string>>, domain: string)
    ensures CountInternal(hrefs, domain) > 0 <==> exists i :: 0 <= i < |hrefs| && InternalLink(hrefs[i], domain)
  {
    if hrefs != [] {
      var init := hrefs[..|hrefs| - 1];
      CountInternalPositive(init, domain);
      assert forall i :: 0 <= i < |init| ==> init[i] == hrefs[i];
    }
  }
}
