// The lounge entities (a lounge, its participants and its messages) and the
// comma-separated form in which a lounge stores its tags.

module LoungeEntities {
  import opened Common

  datatype Visibility = Public | Private | Corporate

  datatype ParticipantRole = Creator | Moderator | Member

  datatype LoungeMessageType = TextType | SystemType | JoinType | LeaveType | TopicChangeType | ModeratorActionType

  /** A lounge row; `tags` is the comma-joined tag list, times are minutes. */
  datatype LoungeRecord = LoungeRecord(
    id: int,
    title: string,
    description: Option<string>,
    topic: string,
    category: Option<string>,
    tags: Option<string>,
    createdBy: int,
    visibility: Visibility,
    maxParticipants: Option<int>,
    currentParticipants: int,
    isActive: bool,
    isFeatured: bool,
    lastActivity: Option<int>)

  /** A membership of a user in a lounge; leaving or deletion clears `isActive`. */
  datatype ParticipantRecord = ParticipantRecord(
    id: int,
    loungeId: int,
    userId: int,
    role: ParticipantRole,
    joinedAt: int,
    lastActivity: Option<int>,
    isActive: bool,
    isMuted: bool,
    mutedUntil: Option<int>)

  datatype LoungeMessageRecord = LoungeMessageRecord(
    id: int,
    loungeId: int,
    userId: int,
    content: string,
    messageType: LoungeMessageType,
    replyToMessageId: Option<int>,
    isEdited: bool,
    isDeleted: bool)

  /** `role.toString()`. */
  function RoleName(r: ParticipantRole): (s: string)
    ensures s == "CREATOR" <==> r == Creator
  {
    match r
    case Creator => "CREATOR"
    case Moderator => "MODERATOR"
    case Member => "MEMBER"
  }

  /** A participant is blocked from sending while muted with an end time
      still in the future; a mute without an end time does not block. */
  predicate MutedAt(p: ParticipantRecord, now: int)
  {
    p.isMuted && p.mutedUntil.Some? && now < p.mutedUntil.value
  }

  /** `String.join(",", tags)`. */
  function JoinTags(tags: seq<string>): string
  {
    if |tags| == 0 then "" else if |tags| == 1 then tags[0] else tags[0] + "," + JoinTags(tags[1..])
  }

  /** The text between consecutive commas, every piece kept, empty ones too. */
  function Pieces(s: string): (r: seq<string>)
    ensures |r| >= 1
    ensures forall i :: 0 <= i < |r| ==> ',' !in r[i]
  {
    if |s| == 0 then [""]
    else if s[0] == ',' then [""] + Pieces(s[1..])
    else
      var rest := Pieces(s[1..]);
      [[s[0]] + rest[0]] + rest[1..]
  }

  /** Removes the empty strings at the end of a split. */
  function DropTrailingEmpty(r: seq<string>): (d: seq<string>)
    ensures d <= r
    ensures |d| == 0 || d[|d| - 1] != ""
    ensures forall i :: |d| <= i < |r| ==> r[i] == ""
  {
    if |r| > 0 && r[|r| - 1] == "" then DropTrailingEmpty(r[..|r| - 1]) else r
  }

  /** `String.split(",")`: a string without a comma comes back whole (even
      the empty string); otherwise the pieces, less the empty trailing ones. */
  function SplitTags(s: string): (r: seq<string>)
    ensures ',' !in s ==> r == [s]
    ensures forall i :: 0 <= i < |r| ==> ',' !in r[i]
    ensures ',' in s ==> |r| == 0 || r[|r| - 1] != ""
  {
    if ',' !in s then [s] else DropTrailingEmpty(Pieces(s))
  }

  lemma {:induction false} PiecesOfCommaFree(a: string)
    requires ',' !in a
    ensures Pieces(a) == [a]
  {
    if |a| > 0 {
      PiecesOfCommaFree(a[1..]);
      assert [a[0]] + a[1..] == a;
    }
  }

  lemma {:induction false} PiecesOfJoined(a: string, b: string)
    requires ',' !in a
    ensures Pieces(a + "," + b) == [a] + Pieces(b)
  {
    var s := a + "," + b;
    if |a| == 0 {
      assert s == "," + b;
      assert s[1..] == b;
    } else {
      assert s[0] == a[0];
      assert s[1..] == a[1..] + "," + b;
      PiecesOfJoined(a[1..], b);
      assert [a[0]] + a[1..] == a;
    }
  }

  /** Splitting a join on every comma gives the list back, provided no tag
      holds a comma. */
  lemma {:induction false} PiecesOfJoinTags(tags: seq<string>)
    requires |tags| >= 1
    requires forall i :: 0 <= i < |tags| ==> ',' !in tags[i]
    ensures Pieces(JoinTags(tags)) == tags
  {
    if |tags| == 1 {
      PiecesOfCommaFree(tags[0]);
    } else {
      PiecesOfJoinTags(tags[1..]);
      PiecesOfJoined(tags[0], JoinTags(tags[1..]));
      assert [tags[0]] + tags[1..] == tags;
    }
  }

  /** Joining the pieces of a string with commas gives the string back. */
  lemma {:induction false} JoinTagsOfPieces(s: string)
    ensures JoinTags(Pieces(s)) == s
  {
    if |s| > 0 {
      var rest := Pieces(s[1..]);
      JoinTagsOfPieces(s[1..]);
      if s[0] == ',' {
        assert ([""] + rest)[1..] == rest;
        assert "" + "," + s[1..] == s;
      } else {
        var r := [[s[0]] + rest[0]] + rest[1..];
        assert r[1..] == rest[1..];
        if |rest| > 1 {
          assert JoinTags(rest) == rest[0] + "," + JoinTags(rest[1..]);
        }
        assert [s[0]] + s[1..] == s;
      }
    }
  }

  /** The tag round trip of createLounge and convertToLoungeDto: a non-empty
      list of non-empty, comma-free tags is read back as it was stored. */
  lemma {:induction false} TagsRoundTrip(tags: seq<string>)
    requires |tags| >= 1
    requires forall i :: 0 <= i < |tags| ==> tags[i] != "" && ',' !in tags[i]
    ensures SplitTags(JoinTags(tags)) == tags
  {
    var s := JoinTags(tags);
    PiecesOfJoinTags(tags);
    if ',' !in s {
      PiecesOfCommaFree(s);
    }
  }

  /** Outside that domain the round trip fails: an empty list comes back as
      one empty tag, and an empty last tag is lost. */
  lemma {:induction false} TagsRoundTripLimits()
    ensures SplitTags(JoinTags([])) == [""]
    ensures SplitTags(JoinTags(["a", ""])) == ["a"]
  {
    assert JoinTags(["a", ""]) == "a,";
    assert Pieces("") == [""];
    assert ","[1..] == "" && "a,"[1..] == ",";
    assert Pieces(",") == ["", ""];
    assert "a,"[0] == 'a' && ['a'] + "" == "a";
    assert Pieces("a,") == [['a'] + Pieces(",")[0]] + Pieces(",")[1..];
  }
}
