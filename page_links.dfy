/**
 * The pagination links the desktop list pages follow. The server answers
 * with absolute `next`/`previous` links; the pages either reduce such a
 * link to its path and query (`new URL(link).pathname + url.search`,
 * keeping the text as it is when it does not parse) or read its `page`
 * parameter. Only `http` and `https` links are parsed; the text after `?`
 * is split into `&`-separated `key=value` entries as `URLSearchParams`
 * does, without percent-decoding.
 */
module PageLinks {
  import opened Common
  import opened Json
  import opened ListOps

  /** The parts of an absolute URL the pages read: its host, `pathname` and `search`. */
  datatype Url = Url(host: string, path: string, search: string)

  /** The characters that end the host of a URL. */
  predicate EndsHost(c: char) { c == '/' || c == '?' || c == '#' }

  predicate IsHash(c: char) { c == '#' }

  predicate IsQuestion(c: char) { c == '?' }

  predicate IsEquals(c: char) { c == '=' }

  /** The position of the first character satisfying `p`, or `|s|` when there is none. */
  function FirstWhere(s: string, p: char -> bool): (i: nat)
    ensures i <= |s|
    ensures forall j :: 0 <= j < i ==> !p(s[j])
    ensures i < |s| ==> p(s[i])
  {
    if s == [] then 0 else if p(s[0]) then 0 else 1 + FirstWhere(s[1..], p)
  }

  /** The first match in a concatenation whose first part has none lies in the second part. */
  lemma {:induction false} FirstWhereAfter(a: string, b: string, p: char -> bool)
    requires forall j :: 0 <= j < |a| ==> !p(a[j])
    ensures FirstWhere(a + b, p) == |a| + FirstWhere(b, p)
    decreases |a|
  {
    if a != [] {
      assert (a + b)[1..] == a[1..] + b;
      FirstWhereAfter(a[1..], b, p);
    } else {
      assert a + b == b;
    }
  }

  const Http := "http://"
  const Https := "https://"

  /** The length of the `http://` or `https://` prefix of `s`, if it has one. */
  function SchemeLength(s: string): (n: Option<nat>)
    ensures n.Some? ==> n.value <= |s|
  {
    if StartsWith(s, Http) then Some(|Http|)
    else if StartsWith(s, Https) then Some(|Https|)
    else None
  }

  /** A link written with one of the two schemes is read with that scheme. */
  lemma SchemeLengthOf(scheme: string, rest: string)
    requires scheme == Http || scheme == Https
    ensures SchemeLength(scheme + rest) == Some(|scheme|)
  {
    var s := scheme + rest;
    assert s[..|scheme|] == scheme;
    if scheme == Https {
      assert s[..|Http|] != Http by {
        assert s[4] == 's' && Http[4] == ':';
        assert s[..|Http|][4] == s[4];
      }
    }
  }

  /**
   * The path and search of what follows the host: the path runs up to the
   * query (`/` when empty); the search is the query including its `?`, or ""
   * when it is only `?`; a fragment is dropped.
   */
  function PathAndSearch(tail: string): (r: (string, string))
    requires tail == [] || EndsHost(tail[0])
    ensures r.0 != "" && r.0[0] == '/'
    ensures r.1 == "" || (r.1[0] == '?' && |r.1| > 1)
    ensures '#' !in r.0 + r.1
  {
    var beforeHash := tail[..FirstWhere(tail, IsHash)];
    var q := FirstWhere(beforeHash, IsQuestion);
    var pathPart := beforeHash[..q];
    var query := beforeHash[q..];
    assert forall j :: 0 <= j < |beforeHash| ==> beforeHash[j] != '#';
    (if pathPart == "" then "/" else pathPart, if |query| <= 1 then "" else query)
  }

  /** A path without query or fragment, followed by a query, splits back into the two. */
  lemma PathAndSearchOf(path: string, query: string)
    requires path != "" && path[0] == '/' && '?' !in path && '#' !in path
    requires query == "" || (query[0] == '?' && |query| > 1 && '#' !in query)
    ensures PathAndSearch(path + query) == (path, query)
  {
    var tail := path + query;
    assert forall j :: 0 <= j < |tail| ==> !IsHash(tail[j]);
    assert tail[..FirstWhere(tail, IsHash)] == tail;
    assert forall j :: 0 <= j < |path| ==> !IsQuestion(path[j]);
    FirstWhereAfter(path, query, IsQuestion);
    assert tail[..|path|] == path && tail[|path|..] == query;
  }

  /** What follows the scheme: the host runs up to the first `/`, `?` or `#` and must not be empty. */
  function ParseAuthority(rest: string): (r: Option<Url>)
    ensures r.Some? ==> r.value.host != "" && r.value.path != "" && r.value.path[0] == '/'
    ensures r.Some? ==> r.value.search == "" || (r.value.search[0] == '?' && |r.value.search| > 1)
    ensures r.Some? ==> '#' !in r.value.path + r.value.search
  {
    var h := FirstWhere(rest, EndsHost);
    if h == 0 then None
    else
      var ps := PathAndSearch(rest[h..]);
      Some(Url(rest[..h], ps.0, ps.1))
  }

  /** A host followed by a path and a query parses into the three. */
  lemma ParseAuthorityOf(host: string, path: string, query: string)
    requires host != "" && forall j :: 0 <= j < |host| ==> !EndsHost(host[j])
    requires path != "" && path[0] == '/' && '?' !in path && '#' !in path
    requires query == "" || (query[0] == '?' && |query| > 1 && '#' !in query)
    ensures ParseAuthority(host + (path + query)) == Some(Url(host, path, query))
  {
    var rest := host + (path + query);
    FirstWhereAfter(host, path + query, EndsHost);
    assert (path + query)[0] == '/';
    assert rest[..|host|] == host && rest[|host|..] == path + query;
    PathAndSearchOf(path, query);
  }

  /** `new URL(s)` on an absolute `http`/`https` link; a link without a scheme or host does not parse. */
  function ParseUrl(s: string): (r: Option<Url>)
    ensures r.Some? ==> r.value.path != "" && r.value.path[0] == '/'
    ensures r.Some? ==> r.value.host != "" && SchemeLength(s).Some?
    ensures r.Some? ==> r.value.search == "" || (r.value.search[0] == '?' && |r.value.search| > 1)
    ensures r.Some? ==> '#' !in r.value.path + r.value.search
  {
    match SchemeLength(s)
    case None => None
    case Some(n) => ParseAuthority(s[n..])
  }

  /**
   * `url.pathname + url.search`, or the text itself when `new URL` throws.
   */
  function ReduceLink(s: string): (r: string)
    ensures ParseUrl(s).Some? ==> r == ParseUrl(s).value.path + ParseUrl(s).value.search
    ensures ParseUrl(s).None? ==> r == s
  {
    match ParseUrl(s)
    case Some(u) => u.path + u.search
    case None => s
  }

  /** A reduced link starts with `/`, so it does not parse again and reducing it twice changes nothing. */
  lemma ReduceLinkIdempotent(s: string)
    ensures ReduceLink(ReduceLink(s)) == ReduceLink(s)
  {
    var r := ReduceLink(s);
    if ParseUrl(s).Some? {
      assert r[0] == '/';
      assert !StartsWith(r, Http) && !StartsWith(r, Https) by {
        assert |r| >= |Http| ==> r[..|Http|][0] == '/';
        assert |r| >= |Https| ==> r[..|Https|][0] == '/';
      }
    }
  }

  /** A well-formed link to a path and query reduces to exactly that path and query. */
  lemma ReduceLinkOfLink(scheme: string, host: string, path: string, query: string)
    requires scheme == Http || scheme == Https
    requires host != "" && forall j :: 0 <= j < |host| ==> !EndsHost(host[j])
    requires path != "" && path[0] == '/' && '?' !in path && '#' !in path
    requires query == "" || (query[0] == '?' && |query| > 1 && '#' !in query)
    ensures ParseUrl(scheme + host + path + query) == Some(Url(host, path, query))
    ensures ReduceLink(scheme + host + path + query) == path + query
  {
    var s := scheme + host + path + query;
    assert s == scheme + (host + (path + query));
    SchemeLengthOf(scheme, host + (path + query));
    assert s[|scheme|..] == host + (path + query);
    ParseAuthorityOf(host, path, query);
  }

  // ---------------------------------------------------------------------
  // Query parameters
  // ---------------------------------------------------------------------

  /** One `key=value` entry; an entry without `=` has the value "". */
  function EntryOf(piece: string): (p: Param)
    ensures '=' !in p.key
  {
    var i := FirstWhere(piece, IsEquals);
    assert forall j :: 0 <= j < i ==> piece[..i][j] == piece[j];
    Param(piece[..i], if i < |piece| then piece[i + 1..] else "")
  }

  function NonEmpty(piece: string): bool { piece != "" }

  /** `url.searchParams`: the non-empty `&`-separated entries after the leading `?`, in order. */
  function SearchParams(search: string): (ps: seq<Param>)
    ensures forall k :: 0 <= k < |ps| ==> '=' !in ps[k].key
  {
    var q := if search != "" && search[0] == '?' then search[1..] else search;
    var pieces := Filter(SplitOn(q, '&'), NonEmpty);
    MapSeq(pieces, EntryOf)
  }

  /** A `key=value` entry reads back as its key and value. */
  lemma EntryOfPair(key: string, value: string)
    requires '=' !in key
    ensures EntryOf(key + "=" + value) == Param(key, value)
  {
    var piece := key + "=" + value;
    assert piece == key + ("=" + value);
    assert forall j :: 0 <= j < |key| ==> !IsEquals(key[j]);
    FirstWhereAfter(key, "=" + value, IsEquals);
    assert piece[..|key|] == key && piece[|key| + 1..] == value;
  }

  /** A query holding one entry reads back as that entry. */
  lemma SearchParamsOfOne(key: string, value: string)
    requires key != "" && '=' !in key && '&' !in key && '&' !in value
    ensures SearchParams("?" + key + "=" + value) == [Param(key, value)]
  {
    var search := "?" + key + "=" + value;
    var q := key + "=" + value;
    assert search[1..] == q;
    assert '&' !in q by {
      assert forall j :: 0 <= j < |q| ==> q[j] == if j < |key| then key[j] else if j == |key| then '=' else value[j - |key| - 1];
    }
    SplitOnAbsent(q, '&');
    FilterAll([q], NonEmpty);
    EntryOfPair(key, value);
  }

  const PageKey := "page"

  /**
   * `parseInt(new URL(link).searchParams.get('page'))`: `None` (NaN) when the
   * link does not parse as an absolute URL, has no `page` entry, or the entry
   * is not a number.
   */
  function PageParam(link: string): (r: Option<int>)
    ensures ParseUrl(link).None? ==> r.None?
    ensures ParseUrl(link).Some? && ParamGet(SearchParams(ParseUrl(link).value.search), PageKey).None? ==> r.None?
  {
    match ParseUrl(link)
    case None => None
    case Some(u) =>
      match ParamGet(SearchParams(u.search), PageKey)
      case None => None
      case Some(v) => ParseInt(v)
  }

  /** The link to page `n` that the server writes reads back as page `n`. */
  lemma PageParamOfPageLink(scheme: string, host: string, path: string, n: nat)
    requires scheme == Http || scheme == Https
    requires host != "" && forall j :: 0 <= j < |host| ==> !EndsHost(host[j])
    requires path != "" && path[0] == '/' && '?' !in path && '#' !in path
    ensures PageParam(scheme + host + path + "?" + PageKey + "=" + NatToString(n)) == Some(n)
  {
    var digits := NatToString(n);
    var query := "?" + PageKey + "=" + digits;
    assert '&' !in digits && '#' !in digits by {
      assert forall j :: 0 <= j < |digits| ==> IsDigit(digits[j]);
    }
    assert '#' !in query by {
      assert forall j :: 0 <= j < |query| ==> query[j] == if j < 6 then query[..6][j] else digits[j - 6];
    }
    assert scheme + host + path + "?" + PageKey + "=" + digits == scheme + host + path + query;
    ReduceLinkOfLink(scheme, host, path, query);
    SearchParamsOfOne(PageKey, digits);
    ParseIntOfIntToString(n);
  }

  /** A list request: a pagination link reduced to its path and query, or the query built from the page's criteria. */
  datatype ListRequest = FollowLink(path: string) | Search(params: seq<Param>)

  /** `if (pageUrl)`: a given, non-empty link is followed; otherwise the criteria are sent. */
  function ListRequestFor(pageUrl: Option<string>, query: seq<Param>): (r: ListRequest)
    ensures r.FollowLink? <==> pageUrl.Some? && pageUrl.value != ""
    ensures r.FollowLink? ==> r.path == ReduceLink(pageUrl.value)
    ensures r.Search? ==> r.params == query
  {
    if pageUrl.Some? && pageUrl.value != "" then FollowLink(ReduceLink(pageUrl.value)) else Search(query)
  }

  /** One page of a list as the paginated endpoints return it. */
  datatype PageData = PageData(results: seq<Record>, count: int, next: Option<string>, previous: Option<string>,
                               currentPage: int, totalPages: int)

  /** The pagination state a list page keeps. */
  datatype Pagination = Pagination(count: int, next: Option<string>, previous: Option<string>, currentPage: int, totalPages: int)

  const InitialPagination := Pagination(0, None, None, 1, 1)

  /** `setPagination({count: data.count, next: data.next, ...})`: the pagination state of an answered page. */
  function PaginationOf(d: PageData): (p: Pagination)
    ensures p.count == d.count && p.next == d.next && p.previous == d.previous
    ensures p.currentPage == d.currentPage && p.totalPages == d.totalPages
  {
    Pagination(d.count, d.next, d.previous, d.currentPage, d.totalPages)
  }
}
