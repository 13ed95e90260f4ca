// ConversationStarterService: picking conversation starters for two users
// from their common skills, interests and industry, filling the template's
// name and industry placeholders, recording how well a starter worked, and
// seeding the default starters.

module ConversationStarters {
  import opened Common
  import opened Tables
  import opened Users
  import Lounges

  datatype ContextType = SkillBased | IndustryBased | InterestBased | General | Icebreaker | Professional | Casual

  /** A starter row; the success rate is kept as an exact rational. */
  datatype StarterRecord = StarterRecord(
    id: int,
    template: string,
    category: string,
    tags: Option<string>,
    contextType: Option<ContextType>,
    difficultyLevel: Option<int>,
    usageCount: int,
    successRate: real,
    isActive: bool)

  const StarterNotFound := "Conversation starter not found"

  /** Stream.limit with a negative size throws. */
  const NegativeLimit := "IllegalArgumentException"

  // ---------------------------------------------------------------------
  // Keywords

  /** The separators of the pattern `[,\s]+`: a comma or a Java whitespace
      character. */
  predicate IsSeparator(c: char)
  {
    c == ',' || c == ' ' || c == '\t' || c == '\n' || c == '\U{000B}' || c == '\U{000C}' || c == '\r'
  }

  /** The text between consecutive separators, empty pieces included. */
  function Chunks(s: string): (r: seq<string>)
    ensures |r| >= 1
    ensures forall i :: 0 <= i < |r| ==> forall c :: c in r[i] ==> c in s && !IsSeparator(c)
  {
    if |s| == 0 then [""]
    else if IsSeparator(s[0]) then [""] + Chunks(s[1..])
    else
      var rest := Chunks(s[1..]);
      [[s[0]] + rest[0]] + rest[1..]
  }

  lemma {:induction false} TrimStartKeepsChars(s: string)
    ensures forall c :: c in TrimStart(s) ==> c in s
  {
    if s != [] && IsTrimmed(s[0]) {
      TrimStartKeepsChars(s[1..]);
    }
  }

  lemma {:induction false} TrimEndKeepsChars(s: string)
    ensures forall c :: c in TrimEnd(s) ==> c in s
  {
    if s != [] && IsTrimmed(s[|s| - 1]) {
      TrimEndKeepsChars(s[..|s| - 1]);
    }
  }

  /** String.trim only removes characters. */
  lemma {:induction false} TrimKeepsChars(s: string)
    ensures forall c :: c in Trim(s) ==> c in s
  {
    TrimStartKeepsChars(s);
    TrimEndKeepsChars(TrimStart(s));
  }

  /** The keywords of a text: lower-cased, split on `[,\s]+`, trimmed, and
      kept when longer than two characters. Splitting on every separator
      and dropping the empty pieces gives the same set as Java's split. */
  function Keywords(text: string): set<string>
  {
    set w | w in Chunks(ToLower(text)) && |Trim(w)| > 2 :: Trim(w)
  }

  /** findCommonKeywords: the keywords both texts share; none when either
      text is null. */
  function CommonKeywords(t1: Option<string>, t2: Option<string>): (r: set<string>)
    ensures t1.None? || t2.None? ==> r == {}
    ensures t1.Some? && t2.Some? ==>
              forall k :: k in r <==> k in Keywords(t1.value) && k in Keywords(t2.value)
  {
    if t1.None? || t2.None? then {} else Keywords(t1.value) * Keywords(t2.value)
  }

  /** The common keywords do not depend on the order of the two texts, and
      each is at least three characters long, holds no separator and no
      capital letter. */
  lemma {:induction false} CommonKeywordsShape(t1: Option<string>, t2: Option<string>)
    ensures CommonKeywords(t1, t2) == CommonKeywords(t2, t1)
    ensures forall k :: k in CommonKeywords(t1, t2) ==>
              |k| >= 3 && forall c :: c in k ==> !IsSeparator(c) && !('A' <= c <= 'Z')
  {
    forall k | k in CommonKeywords(t1, t2)
      ensures |k| >= 3 && forall c :: c in k ==> !IsSeparator(c) && !('A' <= c <= 'Z')
    {
      var lower := ToLower(t1.value);
      var w :| w in Chunks(lower) && |Trim(w)| > 2 && Trim(w) == k;
      TrimKeepsChars(w);
      forall c | c in k
        ensures !IsSeparator(c) && !('A' <= c <= 'Z')
      {
        assert c in w;
        assert c in lower;
        var i :| 0 <= i < |lower| && lower[i] == c;
        assert c == LowerChar(t1.value[i]);
      }
    }
  }

  // ---------------------------------------------------------------------
  // Queries

  /** `findByContextTypeAndIsActiveTrue`; the query has no ORDER BY, and the
      model returns the rows in id order. */
  function ByContext(rows: map<int, StarterRecord>, nextId: nat, t: ContextType): (r: seq<StarterRecord>)
    ensures forall i :: 0 <= i < |r| ==> r[i] in rows.Values && r[i].isActive && r[i].contextType == Some(t)
    ensures forall id :: 0 <= id < nextId && id in rows && rows[id].isActive && rows[id].contextType == Some(t) ==>
              rows[id] in r
  {
    SelectedRows(rows, (s: StarterRecord) => s.isActive && s.contextType == Some(t), nextId)
  }

  /** `tags LIKE %tag%`, with a null column never matching; a `%` or `_`
      inside the tag is a wildcard. */
  predicate TagLike(s: StarterRecord, tag: string)
  {
    s.tags.Some? && Lounges.Like(s.tags.value, "%" + tag + "%")
  }

  /** For a tag without wildcards the query is String.contains. */
  lemma TagLikeIsContains(s: StarterRecord, tag: string)
    requires !Lounges.HasWildcard(tag)
    ensures TagLike(s, tag) <==> s.tags.Some? && Contains(s.tags.value, tag)
  {
    if s.tags.Some? {
      Lounges.LikeInfixIsContains(s.tags.value, tag);
    }
  }

  /** The row filter of `findByTagsContaining`. */
  function TagFilter(t1: string, t2: string, t3: string): StarterRecord -> bool
  {
    (s: StarterRecord) => s.isActive && (TagLike(s, t1) || TagLike(s, t2) || TagLike(s, t3))
  }

  /** The ordering of `findByTagsContaining`: higher success rate first, and
      among equal rates the less used first. */
  predicate RanksBefore(a: StarterRecord, b: StarterRecord)
  {
    a.successRate > b.successRate || (a.successRate == b.successRate && a.usageCount <= b.usageCount)
  }

  predicate Ranked(s: seq<StarterRecord>)
  {
    forall i, j :: 0 <= i < j < |s| ==> RanksBefore(s[i], s[j])
  }

  /** Insert `x` after every starter that ranks before it. */
  function InsertRanked(x: StarterRecord, s: seq<StarterRecord>): (r: seq<StarterRecord>)
    ensures |r| == |s| + 1
  {
    if s == [] then [x]
    else if RanksBefore(x, s[0]) then [x] + s
    else [s[0]] + InsertRanked(x, s[1..])
  }

  /** Inserting adds exactly `x`. */
  lemma {:induction false} InsertRankedPermutes(x: StarterRecord, s: seq<StarterRecord>)
    ensures multiset(InsertRanked(x, s)) == multiset(s) + multiset{x}
  {
    if s != [] && !RanksBefore(x, s[0]) {
      InsertRankedPermutes(x, s[1..]);
      assert s == [s[0]] + s[1..];
    }
  }

  /** Inserting brings in nothing but `x`. */
  lemma InsertRankedMembers(x: StarterRecord, s: seq<StarterRecord>)
    ensures forall e :: e in InsertRanked(x, s) ==> e == x || e in s
  {
    InsertRankedPermutes(x, s);
    forall e | e in InsertRanked(x, s) ensures e == x || e in s {
      assert e in multiset(InsertRanked(x, s));
    }
  }

  /** Inserting into a ranked list keeps it ranked. */
  lemma {:induction false} InsertRankedKeepsRanked(x: StarterRecord, s: seq<StarterRecord>)
    requires Ranked(s)
    ensures Ranked(InsertRanked(x, s))
  {
    if s == [] {
    } else if RanksBefore(x, s[0]) {
      var r := [x] + s;
      forall i, j | 0 <= i < j < |r| ensures RanksBefore(r[i], r[j]) {
        if i == 0 && j > 1 {
          assert RanksBefore(s[0], s[j - 1]);
        }
      }
    } else {
      var rest := InsertRanked(x, s[1..]);
      InsertRankedKeepsRanked(x, s[1..]);
      InsertRankedMembers(x, s[1..]);
      assert InsertRanked(x, s) == [s[0]] + rest;
      assert RanksBefore(s[0], x);
      var r := [s[0]] + rest;
      forall i, j | 0 <= i < j < |r| ensures RanksBefore(r[i], r[j]) {
        if i == 0 {
          var e := rest[j - 1];
          assert e in rest;
          if e != x {
            var k :| 0 <= k < |s[1..]| && s[1..][k] == e;
            assert s[k + 1] == e;
          }
        } else {
          assert r[i] == rest[i - 1] && r[j] == rest[j - 1];
        }
      }
    }
  }

  /** Inserting into a ranked list keeps it ranked and adds exactly `x`. */
  lemma InsertRankedLaws(x: StarterRecord, s: seq<StarterRecord>)
    requires Ranked(s)
    ensures Ranked(InsertRanked(x, s))
    ensures multiset(InsertRanked(x, s)) == multiset(s) + multiset{x}
    ensures forall e :: e in InsertRanked(x, s) ==> e == x || e in s
  {
    InsertRankedPermutes(x, s);
    InsertRankedMembers(x, s);
    InsertRankedKeepsRanked(x, s);
  }

  /** ORDER BY successRate DESC, usageCount ASC (an insertion sort). */
  function SortRanked(s: seq<StarterRecord>): (r: seq<StarterRecord>)
    ensures Ranked(r) && multiset(r) == multiset(s)
  {
    if s == [] then []
    else
      assert s == [s[0]] + s[1..];
      InsertRankedLaws(s[0], SortRanked(s[1..]));
      InsertRanked(s[0], SortRanked(s[1..]))
  }

  /** `findByTagsContaining(tag1, tag2, tag3)`: active starters whose tags
      contain one of the three, best ranked first. An empty tag matches every
      non-null tag column. */
  function ByTags(rows: map<int, StarterRecord>, nextId: nat, t1: string, t2: string, t3: string): (r: seq<StarterRecord>)
    ensures Ranked(r)
    ensures multiset(r) == multiset(SelectedRows(rows, TagFilter(t1, t2, t3), nextId))
    ensures forall i :: 0 <= i < |r| ==> r[i] in rows.Values && r[i].isActive && (TagLike(r[i], t1) || TagLike(r[i], t2) || TagLike(r[i], t3))
    ensures forall id :: 0 <= id < nextId && id in rows && rows[id].isActive
                         && (TagLike(rows[id], t1) || TagLike(rows[id], t2) || TagLike(rows[id], t3)) ==>
              rows[id] in r
  {
    var keep := TagFilter(t1, t2, t3);
    var found := SelectedRows(rows, keep, nextId);
    var r := SortRanked(found);
    forall i | 0 <= i < |r|
      ensures r[i] in rows.Values && keep(r[i])
    {
      assert r[i] in multiset(found);
    }
    forall id | 0 <= id < nextId && id in rows && keep(rows[id])
      ensures rows[id] in r
    {
      assert rows[id] in multiset(found);
    }
    r
  }

  /** The i-th element of a list, or "" when it is shorter. */
  function TagAt(tags: seq<string>, i: nat): string
  {
    if i < |tags| then tags[i] else ""
  }

  /** The elements of `order` that belong to `keywords`: the keyword set in
      its iteration order, which the hash set decides and the model takes as
      a parameter. */
  function InOrder(keywords: set<string>, order: seq<string>): (r: seq<string>)
    ensures forall i :: 0 <= i < |r| ==> r[i] in keywords
  {
    if order == [] then []
    else (if order[0] in keywords then [order[0]] else []) + InOrder(keywords, order[1..])
  }

  /** getSkillBasedStarters and getInterestBasedStarters: without a common
      keyword, the active starters of the context type; with one, the tag
      query on the first three keywords. */
  function KeywordStarters(rows: map<int, StarterRecord>, nextId: nat, common: set<string>, order: seq<string>,
                           fallback: ContextType, n: int): (r: seq<StarterRecord>)
    ensures |r| <= Max(n, 0)
    ensures forall i :: 0 <= i < |r| ==> r[i] in rows.Values && r[i].isActive
    ensures common == {} ==> r <= ByContext(rows, nextId, fallback)
    ensures common == {} ==> forall i :: 0 <= i < |r| ==> r[i].contextType == Some(fallback)
    ensures common != {} ==>
              var tags := InOrder(common, order);
              && r <= ByTags(rows, nextId, TagAt(tags, 0), TagAt(tags, 1), TagAt(tags, 2))
              && Ranked(r)
              && forall i :: 0 <= i < |r| ==>
                   TagLike(r[i], TagAt(tags, 0)) || TagLike(r[i], TagAt(tags, 1)) || TagLike(r[i], TagAt(tags, 2))
  {
    if common == {} then Take(ByContext(rows, nextId, fallback), n)
    else
      var tags := InOrder(common, order);
      var all := ByTags(rows, nextId, TagAt(tags, 0), TagAt(tags, 1), TagAt(tags, 2));
      var r := Take(all, n);
      assert forall i :: 0 <= i < |r| ==> r[i] == all[i];
      r
  }

  /** `equalsIgnoreCase` of a present industry with another, possibly null. */
  predicate SameIndustry(a: Option<string>, b: Option<string>)
  {
    a.Some? && b.Some? && ToLower(a.value) == ToLower(b.value)
  }

  /** getIndustryBasedStarters: industry starters for a shared industry,
      professional ones otherwise. */
  function IndustryStarters(rows: map<int, StarterRecord>, nextId: nat, u1: UserRecord, u2: UserRecord, n: int): (r: seq<StarterRecord>)
    ensures |r| <= Max(n, 0)
    ensures forall i :: 0 <= i < |r| ==> r[i] in rows.Values && r[i].isActive
    ensures forall i :: 0 <= i < |r| ==>
              r[i].contextType == Some(if SameIndustry(u1.industry, u2.industry) then IndustryBased else Professional)
  {
    Take(ByContext(rows, nextId, if SameIndustry(u1.industry, u2.industry) then IndustryBased else Professional), n)
  }

  // ---------------------------------------------------------------------
  // Personalisation

  /** personalizeStarter: the four placeholders replaced, every other field
      copied; a template without a brace is used as it is. */
  function Personalize(s: StarterRecord, u1: UserRecord, u2: UserRecord): (p: StarterRecord)
    ensures p == s.(template := p.template)
    ensures '{' !in s.template ==> p == s
  {
    var t0 := s.template;
    var t1 := ReplaceAll(t0, PlaceholderText(User1Name), PlaceholderValue(User1Name, u1, u2));
    var t2 := ReplaceAll(t1, PlaceholderText(User2Name), PlaceholderValue(User2Name, u1, u2));
    var t3 := ReplaceAll(t2, PlaceholderText(User1Industry), PlaceholderValue(User1Industry, u1, u2));
    var t4 := ReplaceAll(t3, PlaceholderText(User2Industry), PlaceholderValue(User2Industry, u1, u2));
    BracelessIsKept(t0, PlaceholderText(User1Name), PlaceholderValue(User1Name, u1, u2));
    BracelessIsKept(t0, PlaceholderText(User2Name), PlaceholderValue(User2Name, u1, u2));
    BracelessIsKept(t0, PlaceholderText(User1Industry), PlaceholderValue(User1Industry, u1, u2));
    BracelessIsKept(t0, PlaceholderText(User2Industry), PlaceholderValue(User2Industry, u1, u2));
    s.(template := t4)
  }

  /** Text without the target's first character is left as it is. */
  lemma BracelessIsKept(s: string, target: string, v: string)
    requires target != []
    ensures target[0] !in s ==> ReplaceAll(s, target, v) == s
  {
    if target[0] !in s {
      assert s + [] == s;
      ReplaceAllSkips(s, [], target, v);
    }
  }

  /** The four placeholders personalizeStarter fills. */
  datatype Placeholder = User1Name | User2Name | User1Industry | User2Industry

  function PlaceholderText(h: Placeholder): (t: string)
    ensures |t| >= 8 && t[0] == '{' && t[6] == '_'
  {
    "{" + PlaceholderBody(h)
  }

  /** The placeholder after its opening brace. */
  function PlaceholderBody(h: Placeholder): (b: string)
    ensures |b| >= 7 && '{' !in b && b[5] == '_'
  {
    match h
    case User1Name => "user1_name}"
    case User2Name => "user2_name}"
    case User1Industry => "user1_industry}"
    case User2Industry => "user2_industry}"
  }

  /** What a placeholder becomes: a user's name, or a user's industry with
      "your field" and "their field" for a null one. */
  function PlaceholderValue(h: Placeholder, u1: UserRecord, u2: UserRecord): string
  {
    match h
    case User1Name => u1.name
    case User2Name => u2.name
    case User1Industry => u1.industry.GetOr("your field")
    case User2Industry => u2.industry.GetOr("their field")
  }

  /** A template read as literal text and placeholders. */
  datatype Piece = Text(text: string) | Slot(slot: Placeholder)

  function Render(ps: seq<Piece>): string
  {
    if ps == [] then "" else PieceText(ps[0]) + Render(ps[1..])
  }

  /** What one piece of a template reads as. */
  function PieceText(p: Piece): string
  {
    match p
    case Text(a) => a
    case Slot(h) => PlaceholderText(h)
  }

  /** The literal text holds no opening brace. */
  predicate BraceFree(ps: seq<Piece>)
  {
    forall i :: 0 <= i < |ps| && ps[i].Text? ==> '{' !in ps[i].text
  }

  /** The pieces with placeholder `h` turned into the text `v`. */
  function FillSlot(ps: seq<Piece>, h: Placeholder, v: string): (r: seq<Piece>)
    ensures |r| == |ps|
  {
    seq(|ps|, i requires 0 <= i < |ps| => if ps[i] == Slot(h) then Text(v) else ps[i])
  }

  /** The pieces with every placeholder turned into its value. */
  function FillAll(ps: seq<Piece>, u1: UserRecord, u2: UserRecord): (r: seq<Piece>)
    ensures |r| == |ps|
  {
    seq(|ps|, i requires 0 <= i < |ps| => if ps[i].Slot? then Text(PlaceholderValue(ps[i].slot, u1, u2)) else ps[i])
  }

  /** A placeholder's only opening brace is its first character. */
  lemma PlaceholderTail(h: Placeholder)
    ensures '{' !in PlaceholderText(h)[1..]
  {
    assert PlaceholderText(h)[1..] == PlaceholderBody(h);
  }

  /** Replacement steps over text that starts like the target but departs
      from it before the target ends. */
  lemma {:induction false} DepartingStartSkipped(p: string, rest: string, target: string, v: string, k: nat)
    requires 0 < k < |p| && k < |target| && p[k] != target[k]
    requires target[0] !in p[1..]
    ensures ReplaceAll(p + rest, target, v) == p + ReplaceAll(rest, target, v)
  {
    var s := p + rest;
    if |s| >= |target| {
      assert s[k] == p[k];
      assert s[..|target|] != target by {
        assert s[..|target|][k] == s[k];
      }
      assert ReplaceAll(s, target, v) == [s[0]] + ReplaceAll(s[1..], target, v);
      assert s[1..] == p[1..] + rest;
      ReplaceAllSkips(p[1..], rest, target, v);
      var tail := ReplaceAll(rest, target, v);
      assert [s[0]] + (p[1..] + tail) == ([s[0]] + p[1..]) + tail;
      assert [s[0]] + p[1..] == p;
    } else {
      assert ReplaceAll(rest, target, v) == rest;
    }
  }

  /** Two different placeholders differ at the user digit or at the first
      letter after the underscore. */
  lemma PlaceholdersDiffer(g: Placeholder, h: Placeholder)
    requires g != h
    ensures PlaceholderText(g)[5] != PlaceholderText(h)[5] || PlaceholderText(g)[7] != PlaceholderText(h)[7]
  {
  }

  /** Replacing `h` steps over another placeholder. */
  lemma {:induction false} OtherSlotSkipped(g: Placeholder, h: Placeholder, rest: string, v: string)
    requires g != h
    ensures ReplaceAll(PlaceholderText(g) + rest, PlaceholderText(h), v)
            == PlaceholderText(g) + ReplaceAll(rest, PlaceholderText(h), v)
  {
    var p := PlaceholderText(g);
    var target := PlaceholderText(h);
    PlaceholdersDiffer(g, h);
    PlaceholderTail(h);
    assert target[0] == p[0];
    assert target[0] !in p[1..] by { PlaceholderTail(g); }
    if p[5] != target[5] {
      DepartingStartSkipped(p, rest, target, v, 5);
    } else {
      DepartingStartSkipped(p, rest, target, v, 7);
    }
  }

  /** Replacing `h` turns one piece into its filled form and goes on
      with the rest. */
  lemma PieceFilled(p: Piece, h: Placeholder, v: string, rest: string)
    requires p.Text? ==> '{' !in p.text
    ensures ReplaceAll(PieceText(p) + rest, PlaceholderText(h), v)
            == PieceText(if p == Slot(h) then Text(v) else p) + ReplaceAll(rest, PlaceholderText(h), v)
  {
    var target := PlaceholderText(h);
    match p
    case Text(a) =>
      ReplaceAllSkips(a, rest, target, v);
    case Slot(g) =>
      if g == h {
        ReplaceAllSplices([], rest, target, v);
        assert [] + target + rest == target + rest;
      } else {
        OtherSlotSkipped(g, h, rest, v);
      }
  }

  /** Filling a placeholder with brace-free text keeps the text brace-free. */
  lemma FillSlotBraceFree(ps: seq<Piece>, h: Placeholder, v: string)
    requires BraceFree(ps) && '{' !in v
    ensures BraceFree(FillSlot(ps, h, v))
  {
  }

  /** Replacing placeholder `h` by a brace-free value fills exactly that
      placeholder. */
  lemma {:induction false} ReplaceFillsSlot(ps: seq<Piece>, h: Placeholder, v: string)
    requires BraceFree(ps) && '{' !in v
    ensures ReplaceAll(Render(ps), PlaceholderText(h), v) == Render(FillSlot(ps, h, v))
    decreases |ps|
  {
    if ps != [] {
      var filled := FillSlot(ps, h, v);
      ReplaceFillsSlot(ps[1..], h, v);
      assert filled[1..] == FillSlot(ps[1..], h, v);
      PieceFilled(ps[0], h, v, Render(ps[1..]));
    }
  }

  /** Filling the four placeholders one after another fills them all. */
  lemma FillingEachSlotFillsAll(ps: seq<Piece>, u1: UserRecord, u2: UserRecord)
    ensures FillSlot(FillSlot(FillSlot(FillSlot(ps, User1Name, PlaceholderValue(User1Name, u1, u2)),
                                       User2Name, PlaceholderValue(User2Name, u1, u2)),
                              User1Industry, PlaceholderValue(User1Industry, u1, u2)),
                     User2Industry, PlaceholderValue(User2Industry, u1, u2))
            == FillAll(ps, u1, u2)
  {
    var p1 := FillSlot(ps, User1Name, PlaceholderValue(User1Name, u1, u2));
    var p2 := FillSlot(p1, User2Name, PlaceholderValue(User2Name, u1, u2));
    var p3 := FillSlot(p2, User1Industry, PlaceholderValue(User1Industry, u1, u2));
    var p4 := FillSlot(p3, User2Industry, PlaceholderValue(User2Industry, u1, u2));
    forall i | 0 <= i < |ps| ensures p4[i] == FillAll(ps, u1, u2)[i] {
      assert p1[i] == if ps[i] == Slot(User1Name) then Text(PlaceholderValue(User1Name, u1, u2)) else ps[i];
      assert p2[i] == if p1[i] == Slot(User2Name) then Text(PlaceholderValue(User2Name, u1, u2)) else p1[i];
      assert p3[i] == if p2[i] == Slot(User1Industry) then Text(PlaceholderValue(User1Industry, u1, u2)) else p2[i];
    }
  }

  /** The four replacements in turn fill the four placeholders in turn. */
  lemma FourFills(ps: seq<Piece>, v1: string, v2: string, v3: string, v4: string)
    requires BraceFree(ps) && '{' !in v1 && '{' !in v2 && '{' !in v3 && '{' !in v4
    ensures ReplaceAll(ReplaceAll(ReplaceAll(ReplaceAll(Render(ps), PlaceholderText(User1Name), v1),
                                             PlaceholderText(User2Name), v2),
                                  PlaceholderText(User1Industry), v3),
                       PlaceholderText(User2Industry), v4)
            == Render(FillSlot(FillSlot(FillSlot(FillSlot(ps, User1Name, v1), User2Name, v2), User1Industry, v3), User2Industry, v4))
  {
    var p1 := FillSlot(ps, User1Name, v1);
    ReplaceFillsSlot(ps, User1Name, v1);
    FillSlotBraceFree(ps, User1Name, v1);
    var p2 := FillSlot(p1, User2Name, v2);
    ReplaceFillsSlot(p1, User2Name, v2);
    FillSlotBraceFree(p1, User2Name, v2);
    var p3 := FillSlot(p2, User1Industry, v3);
    ReplaceFillsSlot(p2, User1Industry, v3);
    FillSlotBraceFree(p2, User1Industry, v3);
    ReplaceFillsSlot(p3, User2Industry, v4);
  }

  /** personalizeStarter on a template of literal text and placeholders,
      whose text and user values hold no opening brace: every placeholder
      becomes its user's name or industry, a null industry becoming "your
      field" or "their field", and nothing else changes. */
  lemma PersonalizeFillsPlaceholders(s: StarterRecord, u1: UserRecord, u2: UserRecord, ps: seq<Piece>)
    requires s.template == Render(ps) && BraceFree(ps)
    requires '{' !in u1.name && '{' !in u2.name
    requires u1.industry.Some? ==> '{' !in u1.industry.value
    requires u2.industry.Some? ==> '{' !in u2.industry.value
    ensures Personalize(s, u1, u2) == s.(template := Render(FillAll(ps, u1, u2)))
  {
    assert '{' !in "your field" && '{' !in "their field";
    FourFills(ps, PlaceholderValue(User1Name, u1, u2), PlaceholderValue(User2Name, u1, u2),
              PlaceholderValue(User1Industry, u1, u2), PlaceholderValue(User2Industry, u1, u2));
    FillingEachSlotFillsAll(ps, u1, u2);
  }

  /** Text without the target's characters is left as it is. */
  lemma {:induction false} ReplaceAllWithoutChar(s: string, target: string, replacement: string, c: char)
    requires target != [] && c in target && c !in s
    ensures ReplaceAll(s, target, replacement) == s
    decreases |s|
  {
    if |s| >= |target| {
      var k :| 0 <= k < |target| && target[k] == c;
      assert s[..|target|][k] != target[k];
      ReplaceAllWithoutChar(s[1..], target, replacement, c);
      assert [s[0]] + s[1..] == s;
    }
  }

  /** Each of the four placeholders holds an underscore, so a template
      without one, such as every seeded template with its `{skill}`,
      `{industry}` or `{interest}`, is used verbatim. */
  lemma {:induction false} TemplateWithoutUnderscoreIsKept(s: StarterRecord, u1: UserRecord, u2: UserRecord)
    requires '_' !in s.template
    ensures Personalize(s, u1, u2) == s
  {
    ReplaceAllWithoutChar(s.template, PlaceholderText(User1Name), PlaceholderValue(User1Name, u1, u2), '_');
    ReplaceAllWithoutChar(s.template, PlaceholderText(User2Name), PlaceholderValue(User2Name, u1, u2), '_');
    ReplaceAllWithoutChar(s.template, PlaceholderText(User1Industry), PlaceholderValue(User1Industry, u1, u2), '_');
    ReplaceAllWithoutChar(s.template, PlaceholderText(User2Industry), PlaceholderValue(User2Industry, u1, u2), '_');
  }

  /** Replacement scans once, so a placeholder can survive it: in
      "{{user1_name}user1_name}" for a user with an empty name, the inner
      placeholder goes and the outer text becomes one. */
  lemma PlaceholderCanSurvive(s: string, t: string)
    requires s == "{{user1_name}user1_name}" && t == "{user1_name}"
    ensures ReplaceAll(s, t, "") == t
  {
    var r := "user1_name}";
    assert s == [s[0]] + t + r;
    assert s[1] != t[1];
    ScanSkipsOneCharacter(s[0], t, r);
    assert s[0] == t[0] && r == t[1..];
    assert [s[0]] + r == [t[0]] + t[1..];
  }

  /** A text that does not start with the target but holds it from its
      second character, followed by less than the target's length, loses
      just that one occurrence. */
  lemma {:induction false} ScanSkipsOneCharacter(c: char, t: string, r: string)
    requires t != [] && |r| < |t|
    requires ([c] + t + r)[..|t|] != t
    ensures ReplaceAll([c] + t + r, t, "") == [c] + r
  {
    var s := [c] + t + r;
    assert s[1..] == t + r;
    assert (t + r)[..|t|] == t;
    assert (t + r)[|t|..] == r;
    assert ReplaceAll(s[1..], t, "") == "" + ReplaceAll(r, t, "");
  }

  // ---------------------------------------------------------------------
  // Usage statistics

  /** recordStarterUsage: one more use, and the success rate moved to the
      mean that includes this outcome. */
  function WithUsage(s: StarterRecord, wasSuccessful: bool): (n: StarterRecord)
    requires s.usageCount >= 0
    ensures n == s.(usageCount := s.usageCount + 1, successRate := n.successRate)
    ensures n.successRate * (s.usageCount + 1) as real
            == s.successRate * s.usageCount as real + (if wasSuccessful then 1.0 else 0.0)
  {
    var total := s.usageCount + 1;
    var rate := if wasSuccessful then (s.successRate * (total - 1) as real + 1.0) / total as real
                else (s.successRate * (total - 1) as real) / total as real;
    s.(usageCount := total, successRate := rate)
  }

  /** The rate stays a running mean: a rate that was `successes / uses`
      becomes `successes' / (uses + 1)`, and it stays within [0, 1]. */
  lemma {:induction false} UsageKeepsRateInRange(s: StarterRecord, wasSuccessful: bool)
    requires s.usageCount >= 0 && 0.0 <= s.successRate <= 1.0
    ensures 0.0 <= WithUsage(s, wasSuccessful).successRate <= 1.0
  {
    var n := WithUsage(s, wasSuccessful);
    var c := (s.usageCount + 1) as real;
    var sum := s.successRate * s.usageCount as real + (if wasSuccessful then 1.0 else 0.0);
    FractionOf(s.successRate, s.usageCount as real);
    FactorBounds(n.successRate, sum, c, 0.0, 1.0);
  }

  // ---------------------------------------------------------------------
  // Seeds

  /** The fifteen default starters: template, category, tags, context and
      difficulty. */
  datatype Seed = Seed(template: string, category: string, tags: string, contextType: ContextType, difficulty: int)

  const DefaultSeeds: seq<Seed> := [
    Seed("What's the most interesting project you're working on right now?", "Professional", "work,project,interesting", Professional, 1),
    Seed("I noticed you have experience with {skill}. How did you get started with that?", "Skills", "skill,experience,learning", SkillBased, 2),
    Seed("What drew you to the {industry} industry?", "Industry", "industry,career,motivation", IndustryBased, 1),
    Seed("I see we both enjoy {interest}. What got you into that?", "Interests", "hobby,interest,passion", InterestBased, 1),
    Seed("What's the best piece of career advice you've ever received?", "Career", "advice,career,wisdom", Professional, 2),
    Seed("If you could have coffee with anyone in your field, who would it be and why?", "Aspirational", "inspiration,role model,field", Professional, 2),
    Seed("What's a skill you're currently trying to develop?", "Learning", "skill,development,learning", SkillBased, 1),
    Seed("What's the most surprising thing about your job that people wouldn't expect?", "Insights", "job,surprising,insights", Professional, 2),
    Seed("How do you like to spend your time outside of work?", "Personal", "hobbies,personal,balance", Casual, 1),
    Seed("What's a book, podcast, or resource that's had a big impact on your thinking?", "Learning", "book,podcast,learning,impact", General, 2),
    Seed("What trends in your industry are you most excited about?", "Trends", "trends,industry,future,excited", IndustryBased, 2),
    Seed("If you could solve one problem in your field, what would it be?", "Problem Solving", "problem,solution,field,impact", Professional, 3),
    Seed("What's something you've learned recently that changed your perspective?", "Growth", "learning,perspective,growth,insight", General, 2),
    Seed("How do you stay motivated when working on challenging projects?", "Motivation", "motivation,challenge,persistence", Professional, 2),
    Seed("What's your favorite way to learn new things?", "Learning Style", "learning,education,growth", General, 1)
  ]

  /** createStarter: active, unused, with a neutral success rate. */
  function FromSeed(id: int, s: Seed): (r: StarterRecord)
    ensures r.id == id && r.template == s.template && r.category == s.category && r.tags == Some(s.tags)
    ensures r.contextType == Some(s.contextType) && r.difficultyLevel == Some(s.difficulty)
    ensures r.usageCount == 0 && r.successRate == 0.5 && r.isActive
  {
    StarterRecord(id, s.template, s.category, Some(s.tags), Some(s.contextType), Some(s.difficulty), 0, 0.5, true)
  }

  /** The first `count` seeds, stored under `first`, `first + 1`, … */
  function Seeded(first: int, seeds: seq<Seed>, count: nat): (m: map<int, StarterRecord>)
    requires count <= |seeds|
    ensures forall id :: id in m <==> first <= id < first + count
    ensures forall id :: id in m ==> m[id] == FromSeed(id, seeds[id - first])
  {
    if count == 0 then map[]
    else
      var m := Seeded(first, seeds, count - 1);
      m[first + count - 1 := FromSeed(first + count - 1, seeds[count - 1])]
  }

  /** Inserts the seeds in order into an empty table. */
  method StoreSeeds(table: Table<StarterRecord>, seeds: seq<Seed>)
    requires table.Valid() && table.rows == map[]
    modifies table
    ensures table.Valid() && table.nextId == old(table.nextId) + |seeds|
    ensures table.rows == Seeded(old(table.nextId), seeds, |seeds|)
  {
    var first := table.nextId;
    var i := 0;
    while i < |seeds|
      invariant 0 <= i <= |seeds|
      invariant table.Valid() && table.nextId == first + i
      invariant table.rows == Seeded(first, seeds, i)
    {
      var _ := table.Insert(FromSeed(first + i, seeds[i]));
      assert Seeded(first, seeds, i + 1) == Seeded(first, seeds, i)[first + i := FromSeed(first + i, seeds[i])];
      i := i + 1;
    }
  }

  /** There are fifteen defaults. */
  lemma FifteenDefaults()
    ensures |DefaultSeeds| == 15
  {
  }

  /** A map keyed by `count` consecutive ids has `count` entries. */
  lemma {:induction false} RangeKeyedSize<V>(m: map<int, V>, first: int, count: nat)
    requires forall id :: id in m <==> first <= id < first + count
    ensures |m| == count
  {
    if count > 0 {
      var k := first + count - 1;
      var rest := m - {k};
      RangeKeyedSize(rest, first, count - 1);
      assert m.Keys == rest.Keys + {k};
    }
  }

  /** One row per seed. */
  lemma SeededSize(first: int, seeds: seq<Seed>, count: nat)
    requires count <= |seeds|
    ensures |Seeded(first, seeds, count)| == count
  {
    RangeKeyedSize(Seeded(first, seeds, count), first, count);
  }

  /** A stored, active starter: what every query here returns. */
  predicate InPool(s: StarterRecord, rows: map<int, StarterRecord>)
  {
    s in rows.Values && s.isActive
  }

  /** `findRandomStarters` draws active stored starters. */
  predicate DrawnFrom(random: seq<StarterRecord>, rows: map<int, StarterRecord>)
  {
    forall i :: 0 <= i < |random| ==> InPool(random[i], rows)
  }

  /** The skill, interest and industry starters, a third of `count` from
      each query: never more than `count` together. */
  function Picks(rows: map<int, StarterRecord>, next: nat, u1: UserRecord, u2: UserRecord, count: nat,
                 skillOrder: seq<string>, interestOrder: seq<string>): (p: seq<StarterRecord>)
    ensures |p| <= count
    ensures DrawnFrom(p, rows)
  {
    var skills := KeywordStarters(rows, next, CommonKeywords(u1.skills, u2.skills), skillOrder, SkillBased, count / 3);
    var interests := KeywordStarters(rows, next, CommonKeywords(u1.interests, u2.interests), interestOrder, InterestBased, count / 3);
    var industry := IndustryStarters(rows, next, u1, u2, count / 3);
    PoolAppend(skills, interests, rows);
    PoolAppend(skills + interests, industry, rows);
    skills + interests + industry
  }

  /** The starters before personalisation: the picks, topped up from the
      random draw while fewer than `count`, and cut to `count`. */
  function Candidates(rows: map<int, StarterRecord>, next: nat, u1: UserRecord, u2: UserRecord, count: nat,
                      skillOrder: seq<string>, interestOrder: seq<string>, random: seq<StarterRecord>): (r: seq<StarterRecord>)
    requires DrawnFrom(random, rows)
    ensures var picked := Picks(rows, next, u1, u2, count, skillOrder, interestOrder);
            && picked <= r
            && r[|picked|..] <= random
            && |r| == Min(count, |picked| + |random|)
    ensures DrawnFrom(r, rows)
  {
    var picked := Picks(rows, next, u1, u2, count, skillOrder, interestOrder);
    var all := if |picked| < count then picked + Take(random, count - |picked|) else picked;
    PoolAppend(picked, Take(random, count - |picked|), rows);
    var r := Take(all, count);
    assert r == picked + Take(random, count - |picked|);
    assert r[|picked|..] == Take(random, count - |picked|);
    r
  }

  lemma PoolAppend(a: seq<StarterRecord>, b: seq<StarterRecord>, rows: map<int, StarterRecord>)
    requires DrawnFrom(a, rows) && DrawnFrom(b, rows)
    ensures DrawnFrom(a + b, rows)
  {
  }

  /** Each starter personalised for the two users. */
  function Personalized(chosen: seq<StarterRecord>, u1: UserRecord, u2: UserRecord): (r: seq<StarterRecord>)
    ensures |r| == |chosen|
    ensures forall i :: 0 <= i < |r| ==> r[i] == Personalize(chosen[i], u1, u2)
  {
    seq(|chosen|, i requires 0 <= i < |chosen| => Personalize(chosen[i], u1, u2))
  }

  /** `p` is an active stored starter personalised for the two users. */
  ghost predicate PersonalizedFrom(p: StarterRecord, rows: map<int, StarterRecord>, u1: UserRecord, u2: UserRecord)
  {
    exists s :: InPool(s, rows) && p == Personalize(s, u1, u2)
  }

  lemma PersonalizedFromPool(chosen: seq<StarterRecord>, out: seq<StarterRecord>, rows: map<int, StarterRecord>,
                             u1: UserRecord, u2: UserRecord)
    requires forall i :: 0 <= i < |chosen| ==> InPool(chosen[i], rows)
    requires out == Personalized(chosen, u1, u2)
    ensures forall i :: 0 <= i < |out| ==> PersonalizedFrom(out[i], rows, u1, u2)
  {
    forall i | 0 <= i < |out|
      ensures PersonalizedFrom(out[i], rows, u1, u2)
    {
      var s := chosen[i];
      assert InPool(s, rows) && out[i] == Personalize(s, u1, u2);
    }
  }

  class ConversationStarterService {
    const conversationStarterRepository: Table<StarterRecord>
    const userRepository: Table<UserRecord>

    ghost predicate Valid()
      reads this, conversationStarterRepository, userRepository
    {
      conversationStarterRepository.Valid() && userRepository.Valid()
      && (forall id :: id in conversationStarterRepository.rows ==>
            conversationStarterRepository.rows[id].id == id && conversationStarterRepository.rows[id].usageCount >= 0)
      && UsersKeyedById(userRepository.rows)
    }

    constructor (conversationStarterRepository: Table<StarterRecord>, userRepository: Table<UserRecord>)
      requires conversationStarterRepository.Valid() && userRepository.Valid()
      requires forall id :: id in conversationStarterRepository.rows ==>
                 conversationStarterRepository.rows[id].id == id && conversationStarterRepository.rows[id].usageCount >= 0
      requires UsersKeyedById(userRepository.rows)
      ensures Valid()
      ensures this.conversationStarterRepository == conversationStarterRepository && this.userRepository == userRepository
    {
      this.conversationStarterRepository := conversationStarterRepository;
      this.userRepository := userRepository;
    }

    /** generatePersonalizedStarters. `skillOrder` and `interestOrder` stand
        for the iteration order of the common keyword sets, and `random` for
        what `findRandomStarters` draws (at most the requested number of it
        is used). At most `count` starters come back, each one an active
        stored starter with its placeholders filled in. */
    function GeneratePersonalizedStarters(user1Id: int, user2Id: int, count: int, skillOrder: seq<string>,
                                          interestOrder: seq<string>, random: seq<StarterRecord>): (r: Result<seq<StarterRecord>>)
      reads this, conversationStarterRepository, userRepository
      requires DrawnFrom(random, conversationStarterRepository.rows)
      ensures user1Id !in userRepository.rows ==> r == Err("User not found: " + IntToString(user1Id))
      ensures user1Id in userRepository.rows && user2Id !in userRepository.rows ==> r == Err("User not found: " + IntToString(user2Id))
      ensures user1Id in userRepository.rows && user2Id in userRepository.rows ==> (r.Ok? <==> count >= 0)
      ensures r.Ok? ==> |r.value| <= count
      ensures r.Ok? ==>
                var u1 := userRepository.rows[user1Id];
                var u2 := userRepository.rows[user2Id];
                r.value == Personalized(Candidates(conversationStarterRepository.rows, Max(conversationStarterRepository.nextId, 0),
                                                   u1, u2, count, skillOrder, interestOrder, random), u1, u2)
      ensures r.Ok? ==> forall i :: 0 <= i < |r.value| ==>
                PersonalizedFrom(r.value[i], conversationStarterRepository.rows,
                                 userRepository.rows[user1Id], userRepository.rows[user2Id])
    {
      if user1Id !in userRepository.rows then Err("User not found: " + IntToString(user1Id))
      else if user2Id !in userRepository.rows then Err("User not found: " + IntToString(user2Id))
      else if count < 0 then Err(NegativeLimit)
      else
        var u1 := userRepository.rows[user1Id];
        var u2 := userRepository.rows[user2Id];
        var chosen := Candidates(conversationStarterRepository.rows, Max(conversationStarterRepository.nextId, 0),
                                 u1, u2, count, skillOrder, interestOrder, random);
        var out := Personalized(chosen, u1, u2);
        PersonalizedFromPool(chosen, out, conversationStarterRepository.rows, u1, u2);
        Ok(out)
    }

    /** recordStarterUsage. */
    method RecordStarterUsage(starterId: int, wasSuccessful: bool) returns (r: Result<Unit>)
      requires Valid()
      modifies conversationStarterRepository
      ensures Valid()
      ensures starterId !in old(conversationStarterRepository.rows) ==>
                r == Err(StarterNotFound) && conversationStarterRepository.rows == old(conversationStarterRepository.rows)
      ensures starterId in old(conversationStarterRepository.rows) ==>
                r == Ok(Unit)
                && conversationStarterRepository.rows
                   == old(conversationStarterRepository.rows)[starterId := WithUsage(old(conversationStarterRepository.rows)[starterId], wasSuccessful)]
    {
      if starterId !in conversationStarterRepository.rows {
        return Err(StarterNotFound);
      }
      var s := WithUsage(conversationStarterRepository.rows[starterId], wasSuccessful);
      conversationStarterRepository.Update(starterId, s);
      r := Ok(Unit);
    }

    /** initializeDefaultStarters: nothing when any starter exists, else the
        fifteen seeds saved one after the other. */
    method InitializeDefaultStarters()
      requires Valid()
      modifies conversationStarterRepository
      ensures Valid()
      ensures old(conversationStarterRepository.rows) != map[] ==>
                conversationStarterRepository.rows == old(conversationStarterRepository.rows)
      ensures old(conversationStarterRepository.rows) == map[] ==>
                conversationStarterRepository.rows == Seeded(old(conversationStarterRepository.nextId), DefaultSeeds, |DefaultSeeds|)
    {
      if conversationStarterRepository.rows != map[] {
        return;
      }
      InsertSeeds(DefaultSeeds);
    }

    /** createStarter for each seed in turn, into an empty repository. */
    method InsertSeeds(seeds: seq<Seed>)
      requires Valid() && conversationStarterRepository.rows == map[]
      modifies conversationStarterRepository
      ensures Valid()
      ensures conversationStarterRepository.rows == Seeded(old(conversationStarterRepository.nextId), seeds, |seeds|)
    {
      StoreSeeds(conversationStarterRepository, seeds);
    }
  }
}
