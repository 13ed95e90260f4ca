// SearchService: the global-search guard, the choice of user query with its
// LIKE patterns, and the suggestion lists.

module Search {
  import opened Common
  import opened Users

  /** Some code point of `s` is one that trim keeps. */
  predicate HasVisible(s: string)
  {
    exists i :: 0 <= i < |s| && !IsTrimmed(s[i])
  }

  /** `s == null || s.trim().isEmpty()`: null, or made only of code points
      up to U+0020. */
  predicate IsNullOrBlank(s: Option<string>): (b: bool)
    ensures b <==> s.None? || !HasVisible(s.value)
  {
    if s.Some? then BlankIffAllTrimmed(s.value); s.None? || IsBlank(s.value) else true
  }

  /** hasFilters: some filter holds a code point that trim keeps. */
  predicate HasFilters(industry: Option<string>, skills: Option<string>, location: Option<string>): (b: bool)
    ensures b <==> (industry.Some? && HasVisible(industry.value)) || (skills.Some? && HasVisible(skills.value))
                   || (location.Some? && HasVisible(location.value))
  {
    !IsNullOrBlank(industry) || !IsNullOrBlank(skills) || !IsNullOrBlank(location)
  }

  /** The LIKE pattern for one filter: "%" matches anything, otherwise the
      lower-cased value between two wildcards. */
  function FilterPattern(v: Option<string>): (r: string)
    ensures v.None? ==> r == "%"
    ensures v.Some? ==> |r| == |v.value| + 2 && r[0] == '%' && r[|r| - 1] == '%' && r[1..|r| - 1] == ToLower(v.value)
  {
    if v.None? then "%" else "%" + ToLower(v.value) + "%"
  }

  /** Only a null filter gets the match-anything pattern, and patterns of
      distinct lower-case values are distinct. */
  lemma {:induction false} FilterPatternIsInjectiveOnLowerCase(v: Option<string>, w: Option<string>)
    requires v.Some? ==> ToLower(v.value) == v.value
    requires w.Some? ==> ToLower(w.value) == w.value
    ensures FilterPattern(v) == FilterPattern(w) ==> v == w
  {
    if FilterPattern(v) == FilterPattern(w) {
      if v.Some? && w.Some? {
        assert FilterPattern(v)[1..|FilterPattern(v)| - 1] == FilterPattern(w)[1..|FilterPattern(w)| - 1];
      }
    }
  }

  /** The repository query searchUsers runs. */
  datatype UserQuery =
    | WithFilters(query: string, industry: string, skills: string, location: string)
    | NameOrEmail(text: Option<string>)

  /** searchUsers' choice: the filtered query with four patterns when a
      filter is set; otherwise (in both remaining branches) the name-or-email
      query with the raw query. */
  function UserQueryFor(query: Option<string>, industry: Option<string>, skills: Option<string>,
                        location: Option<string>): (q: UserQuery)
    ensures q.WithFilters? <==> HasFilters(industry, skills, location)
    ensures q.WithFilters? ==> q == WithFilters(FilterPattern(query), FilterPattern(industry), FilterPattern(skills),
                                                FilterPattern(location))
    ensures q.NameOrEmail? ==> q.text == query
  {
    if HasFilters(industry, skills, location) then
      WithFilters(FilterPattern(query), FilterPattern(industry), FilterPattern(skills), FilterPattern(location))
    else if query.Some? && !IsBlank(query.value) then NameOrEmail(query)
    else NameOrEmail(query)
  }

  /** `PageRequest.of(page, size)`, once its arguments are accepted. */
  datatype PageRequest = PageRequest(page: nat, size: nat)

  /** `PageRequest.of`: a negative page index or a size below one is an
      IllegalArgumentException; the page index is checked first. */
  function PageRequestOf(page: int, size: int): (r: Result<PageRequest>)
    ensures r.Ok? <==> page >= 0 && size >= 1
    ensures r.Ok? ==> r.value.page == page && r.value.size == size
    ensures page < 0 ==> r == Err("Page index must not be less than zero")
    ensures page >= 0 && size < 1 ==> r == Err("Page size must not be less than one")
  {
    if page < 0 then Err("Page index must not be less than zero")
    else if size < 1 then Err("Page size must not be less than one")
    else Ok(PageRequest(page, size))
  }

  /** One page from the repository; `totalElements` is a `long`. */
  datatype Page = Page(content: seq<UserRecord>, totalElements: int, totalPages: int, number: int,
                       hasNext: bool, hasPrevious: bool)

  const TwoTo32: int := 0x1_0000_0000
  const TwoTo31: int := 0x8000_0000

  /** The `(int)` cast of a `long`: its low 32 bits, read as two's
      complement. */
  function NarrowToInt(x: int): (r: int)
    ensures -TwoTo31 <= r < TwoTo31
    ensures (x - r) % TwoTo32 == 0
    ensures -TwoTo31 <= x < TwoTo31 ==> r == x
  {
    var low := x % TwoTo32;
    var r := if low >= TwoTo31 then low - TwoTo32 else low;
    assert x - r == (x / TwoTo32) * TwoTo32 || x - r == (x / TwoTo32 + 1) * TwoTo32;
    r
  }

  /** A `List<Object>` field of the result that is never filled: left null,
      or set to an empty list. */
  datatype UnfilledList = Null | EmptyList

  /** SearchResultDto: the counters are `int` and the flags `boolean`, so
      they are 0 and false until set; the user list starts null. */
  datatype SearchResult = SearchResult(
    query: Option<string>,
    totalResults: int,
    totalUsers: int,
    totalPages: int,
    currentPage: int,
    hasNext: bool,
    hasPrevious: bool,
    users: Option<seq<UserRecord>>,
    lounges: UnfilledList,
    meetings: UnfilledList,
    announcements: UnfilledList)

  /** `new SearchResultDto()` followed by `setQuery(query)`. */
  function EmptyResult(query: Option<string>): (r: SearchResult)
    ensures r.query == query && r.totalResults == 0 && r.totalUsers == 0 && r.totalPages == 0 && r.currentPage == 0
    ensures !r.hasNext && !r.hasPrevious && r.users.None?
    ensures r.lounges.Null? && r.meetings.Null? && r.announcements.Null?
  {
    SearchResult(query, 0, 0, 0, 0, false, false, None, Null, Null, Null)
  }

  /** searchUsers, with `run` answering a repository query for a page. */
  function SearchUsers(query: Option<string>, industry: Option<string>, skills: Option<string>, location: Option<string>,
                       page: int, size: int, run: (UserQuery, PageRequest) -> Page): (r: Result<SearchResult>)
    ensures r.Err? <==> page < 0 || size < 1
    ensures r.Err? ==> r == Err(PageRequestOf(page, size).message)
    ensures r.Ok? ==>
              var found := run(UserQueryFor(query, industry, skills, location), PageRequest(page, size));
              && r.value.query == query && r.value.users == Some(found.content)
              && r.value.totalUsers == NarrowToInt(found.totalElements)
              && r.value.totalPages == found.totalPages && r.value.currentPage == found.number
              && r.value.hasNext == found.hasNext && r.value.hasPrevious == found.hasPrevious
    ensures r.Ok? ==> r.value.totalResults == 0
    ensures r.Ok? ==> r.value.lounges.Null? && r.value.meetings.Null? && r.value.announcements.Null?
  {
    match PageRequestOf(page, size)
    case Err(e) => Err(e)
    case Ok(request) =>
      var found := run(UserQueryFor(query, industry, skills, location), request);
      Ok(EmptyResult(query).(users := Some(found.content), totalUsers := NarrowToInt(found.totalElements),
                             totalPages := found.totalPages, currentPage := found.number,
                             hasNext := found.hasNext, hasPrevious := found.hasPrevious))
  }

  /** globalSearch: for a null or blank query, total 0, empty lists and no
      repository call; otherwise the unfiltered user search, its user total
      becoming the overall total, the page fields left 0 and false. */
  function GlobalSearch(query: Option<string>, page: int, size: int, run: (UserQuery, PageRequest) -> Page)
    : (r: Result<SearchResult>)
    ensures IsNullOrBlank(query) ==>
              r == Ok(EmptyResult(query).(users := Some([]), lounges := EmptyList, meetings := EmptyList,
                                          announcements := EmptyList))
    ensures !IsNullOrBlank(query) ==> (r.Err? <==> page < 0 || size < 1)
    ensures !IsNullOrBlank(query) && r.Ok? ==>
              var found := run(NameOrEmail(query), PageRequest(page, size));
              && r.value.query == query
              && r.value.users == Some(found.content)
              && r.value.totalUsers == NarrowToInt(found.totalElements) && r.value.totalResults == r.value.totalUsers
              && r.value.totalPages == 0 && r.value.currentPage == 0 && !r.value.hasNext && !r.value.hasPrevious
              && r.value.lounges == EmptyList && r.value.meetings == EmptyList && r.value.announcements == EmptyList
  {
    var initial := EmptyResult(query).(users := Some([]), lounges := EmptyList, meetings := EmptyList,
                                       announcements := EmptyList);
    if IsNullOrBlank(query) then Ok(initial)
    else
      match SearchUsers(query, None, None, None, page, size, run)
      case Err(e) => Err(e)
      case Ok(found) =>
        Ok(initial.(users := found.users, totalUsers := found.totalUsers, totalResults := found.totalUsers))
  }

  /** A blank query never reaches the repository and never builds a page
      request: any repository, page and size give the same answer. */
  lemma GlobalSearchOfBlankIgnoresRepository(query: Option<string>, page: int, size: int, page': int, size': int,
                                             run: (UserQuery, PageRequest) -> Page, run': (UserQuery, PageRequest) -> Page)
    requires IsNullOrBlank(query)
    ensures GlobalSearch(query, page, size, run) == GlobalSearch(query, page', size', run')
  {
  }

  // ---------------------------------------------------------------------
  // Suggestions

  const Industries: seq<string> := ["Technology", "Healthcare", "Finance", "Education", "Marketing",
                                    "Sales", "Engineering", "Design", "Operations", "Consulting"]

  const SkillSuggestions: seq<string> := ["Java", "Python", "JavaScript", "React", "Angular", "Node.js",
                                          "Project Management", "Data Analysis", "Machine Learning",
                                          "Cloud Computing", "DevOps", "UI/UX Design"]

  /** `x.toLowerCase().contains(query.toLowerCase())`. */
  predicate MatchesIgnoringCase(x: string, query: string)
  {
    Contains(ToLower(x), ToLower(query))
  }

  /** Matching ignores the case of both sides. */
  lemma MatchingIgnoresCase(x: string, query: string)
    ensures MatchesIgnoringCase(ToLower(x), query) == MatchesIgnoringCase(x, query)
    ensures MatchesIgnoringCase(x, ToLower(query)) == MatchesIgnoringCase(x, query)
  {
    LowerIsIdempotent(x);
    LowerIsIdempotent(query);
  }

  /** The entries of `xs` that match, in order. */
  function Matching(xs: seq<string>, query: string): (r: seq<string>)
    ensures forall i :: 0 <= i < |r| ==> r[i] in xs && MatchesIgnoringCase(r[i], query)
    ensures forall x :: x in xs && MatchesIgnoringCase(x, query) ==> x in r
  {
    if xs == [] then [] else (if MatchesIgnoringCase(xs[0], query) then [xs[0]] else []) + Matching(xs[1..], query)
  }

  /** Filtering a concatenation filters each part and keeps them in order. */
  lemma {:induction false} MatchingAppend(xs: seq<string>, ys: seq<string>, query: string)
    ensures Matching(xs + ys, query) == Matching(xs, query) + Matching(ys, query)
  {
    if xs != [] {
      assert (xs + ys)[0] == xs[0] && (xs + ys)[1..] == xs[1..] + ys;
      MatchingAppend(xs[1..], ys, query);
    } else {
      assert xs + ys == ys;
    }
  }

  /** The names of the active users, in repository order. */
  function ActiveNames(users: seq<UserRecord>): (r: seq<string>)
    ensures forall x :: x in r <==> exists u :: u in users && u.isActive && u.name == x
  {
    if users == [] then []
    else
      var rest := ActiveNames(users[1..]);
      assert forall u :: u in users <==> u == users[0] || u in users[1..];
      (if users[0].isActive then [users[0].name] else []) + rest
  }

  /** `name` belongs to an active user whose name matches. */
  ghost predicate SuggestedName(name: string, users: seq<UserRecord>, query: string)
  {
    exists u :: u in users && u.isActive && u.name == name && MatchesIgnoringCase(u.name, query)
  }

  /** findTop5ByNameContainingIgnoreCaseAndIsActiveTrue over the users in
      repository order: the names of the first `n` active users whose name
      contains the query. */
  function TopNames(users: seq<UserRecord>, query: string, n: nat): (r: seq<string>)
    ensures |r| == Min(n, |Matching(ActiveNames(users), query)|)
    ensures r <= Matching(ActiveNames(users), query)
    ensures forall i :: 0 <= i < |r| ==> SuggestedName(r[i], users, query)
  {
    var all := Matching(ActiveNames(users), query);
    var r := Take(all, n);
    assert forall i :: 0 <= i < |r| ==> r[i] == all[i] && r[i] in ActiveNames(users);
    r
  }

  predicate NoDuplicates<T(==)>(xs: seq<T>)
  {
    forall i, j :: 0 <= i < j < |xs| ==> xs[i] != xs[j]
  }

  /** The position of the first occurrence of `x`. */
  function FirstIndex(xs: seq<string>, x: string): (i: nat)
    requires x in xs
    ensures i < |xs| && xs[i] == x && x !in xs[..i]
  {
    if xs[0] == x then 0
    else
      var i := FirstIndex(xs[1..], x);
      assert xs[..i + 1] == [xs[0]] + xs[1..][..i];
      i + 1
  }

  /** Only the first occurrence is both an occurrence and has none before it. */
  lemma FirstIndexIsUnique(xs: seq<string>, x: string, k: nat)
    requires k < |xs| && xs[k] == x && x !in xs[..k]
    ensures FirstIndex(xs, x) == k
  {
  }

  /** `Stream.distinct`: first occurrences, in the order they occur. */
  function Distinct(xs: seq<string>): (r: seq<string>)
    ensures NoDuplicates(r)
    ensures forall x :: x in r <==> x in xs
    ensures forall i, j :: 0 <= i < j < |r| ==> FirstIndex(xs, r[i]) < FirstIndex(xs, r[j])
    ensures |r| <= |xs|
  {
    if xs == [] then []
    else
      var init := xs[..|xs| - 1];
      var last := xs[|xs| - 1];
      var d := Distinct(init);
      assert xs == init + [last];
      forall x | x in init ensures FirstIndex(xs, x) == FirstIndex(init, x) {
        var k := FirstIndex(init, x);
        assert xs[..k] == init[..k];
        FirstIndexIsUnique(xs, x, k);
      }
      if last in d then d
      else
        assert xs[..|xs| - 1] == init;
        FirstIndexIsUnique(xs, last, |xs| - 1);
        d + [last]
  }

  /** The suggestion candidates: the top five user names, then the matching
      fixed industries, then the matching skills. */
  function Candidates(query: string, users: seq<UserRecord>, industries: seq<string>, skills: seq<string>)
    : (r: seq<string>)
    ensures forall i :: 0 <= i < |r| ==>
              SuggestedName(r[i], users, query) || ((r[i] in industries || r[i] in skills) && MatchesIgnoringCase(r[i], query))
    ensures forall x :: (x in industries || x in skills) && MatchesIgnoringCase(x, query) ==> x in r
  {
    var names := TopNames(users, query, 5);
    var r := names + Matching(industries, query) + Matching(skills, query);
    assert forall i :: 0 <= i < |names| ==> r[i] == names[i];
    r
  }

  /** The candidates in order: the first five matching active user names,
      then the matching entries of the industry and skill lists, in list
      order. */
  lemma CandidatesInOrder(query: string, users: seq<UserRecord>, industries: seq<string>, skills: seq<string>)
    ensures Candidates(query, users, industries, skills)
            == Take(Matching(ActiveNames(users), query), 5) + Matching(industries + skills, query)
  {
    MatchingAppend(industries, skills, query);
  }

  /** The first ten distinct candidates. */
  function Suggested(query: string, users: seq<UserRecord>, industries: seq<string>, skills: seq<string>)
    : (r: seq<string>)
    ensures var d := Distinct(Candidates(query, users, industries, skills));
            r <= d && |r| == Min(10, |d|)
    ensures NoDuplicates(r)
    ensures forall i :: 0 <= i < |r| ==>
              SuggestedName(r[i], users, query) || ((r[i] in industries || r[i] in skills) && MatchesIgnoringCase(r[i], query))
    ensures |Distinct(Candidates(query, users, industries, skills))| <= 10 ==>
              forall x :: (x in industries || x in skills) && MatchesIgnoringCase(x, query) ==> x in r
  {
    var all := Candidates(query, users, industries, skills);
    var d := Distinct(all);
    var r := Take(d, 10);
    assert forall i :: 0 <= i < |r| ==> r[i] == d[i] && r[i] in all;
    r
  }

  /** `String.length()`: the number of UTF-16 code units, two for a code
      point above U+FFFF. */
  function Utf16Length(s: string): (n: nat)
    ensures |s| <= n <= 2 * |s|
  {
    if s == [] then 0 else (if s[0] as int > 0xFFFF then 2 else 1) + Utf16Length(s[1..])
  }

  /** A single emoji is one code point but two UTF-16 units, so it is long
      enough to be looked up. */
  lemma EmojiIsTwoUnitsLong(s: string)
    requires s == "\U{1F600}"
    ensures |s| == 1 && Utf16Length(s) == 2
  {
  }

  /** getSearchSuggestions: nothing for a null query or one shorter than two
      UTF-16 units; otherwise the first ten distinct candidates. While at
      most ten distinct candidates exist, no matching industry or skill is
      dropped. */
  function SearchSuggestions(query: Option<string>, users: seq<UserRecord>): (r: seq<string>)
    ensures query.None? || Utf16Length(query.value) < 2 ==> r == []
    ensures query.Some? && Utf16Length(query.value) >= 2 ==>
              var d := Distinct(Candidates(query.value, users, Industries, SkillSuggestions));
              r <= d && |r| == Min(10, |d|)
    ensures |r| <= 10 && NoDuplicates(r)
    ensures forall i :: 0 <= i < |r| ==>
              SuggestedName(r[i], users, query.value)
              || ((r[i] in Industries || r[i] in SkillSuggestions) && MatchesIgnoringCase(r[i], query.value))
    ensures query.Some? && Utf16Length(query.value) >= 2
            && |Distinct(Candidates(query.value, users, Industries, SkillSuggestions))| <= 10 ==>
              forall x :: (x in Industries || x in SkillSuggestions) && MatchesIgnoringCase(x, query.value) ==> x in r
  {
    if query.None? || Utf16Length(query.value) < 2 then [] else Suggested(query.value, users, Industries, SkillSuggestions)
  }

  const PopularSearchTerms: seq<string> :=
    ["Software Engineer", "Product Manager", "Data Scientist", "UX Designer", "Marketing Manager",
     "Business Analyst", "DevOps Engineer", "Frontend Developer"]

  const RecentSearchTerms: seq<string> := ["Java Developer", "Project Manager", "San Francisco"]

  /** getPopularSearches: the fixed list; the limit is not consulted. */
  function PopularSearches(limit: int): (r: seq<string>)
    ensures r == PopularSearchTerms && |r| == 8 && NoDuplicates(r)
  {
    PopularSearchTerms
  }

  /** getRecentSearches: the fixed list; the limit is not consulted. */
  function RecentSearches(limit: int): (r: seq<string>)
    ensures r == RecentSearchTerms && |r| == 3 && NoDuplicates(r)
  {
    RecentSearchTerms
  }

  /** Neither list depends on the limit it is given. */
  lemma FixedListsIgnoreLimit(a: int, b: int)
    ensures PopularSearches(a) == PopularSearches(b) && RecentSearches(a) == RecentSearches(b)
  {
  }
}
