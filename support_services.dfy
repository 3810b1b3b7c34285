/** SupportServices: support chats between a patient or doctor and the help
    desk. Chats live in one table keyed by id; each owner account keeps the
    ids of its chats in `chatsWithHelpers`, in the order they were pushed. */
module SupportServices {
  import opened Wrappers

  /** One message of a chat; `date` is the instant `new Date()` gave. */
  datatype Message = Message(date: int, content: string, isUser: bool)

  datatype SupportChat = SupportChat(id: string, user: string, title: string,
                                     messages: seq<Message>, date: int)

  datatype SupportError =
    | NoUserFound       // "no_user_found"
    | NoQuestionFound   // "no_question_found"
    | UndefinedAccess   // a TypeError from reading a field of `undefined`

  /** `{ from?, amount?, limitMessages? }`; all absent by default. */
  datatype GetQuestionsOptions = GetQuestionsOptions(from: Option<nat>, amount: Option<nat>,
                                                     limitMessages: Option<int>)

  /** `{ limitMessages? }`; absent by default. */
  datatype GetQuestionOptions = GetQuestionOptions(limitMessages: Option<int>)

  const NoQuestionsOptions := GetQuestionsOptions(None, None, None)
  const NoQuestionOptions := GetQuestionOptions(None)

  /** The number of messages, chats per page and skipped chats used when the caller gives none. */
  const DefaultLimitMessages: int := 50
  const DefaultAmount: nat := 50
  const DefaultFrom: nat := 0

  function Min(a: int, b: int): int { if a < b then a else b }
  function Max(a: int, b: int): int { if a < b then b else a }

  // ---------------------------------------------------------------------
  // Array.prototype.slice(0, end) and MongoDB skip/limit
  // ---------------------------------------------------------------------

  /** `s.slice(0, end)`: a negative `end` counts back from the end of `s`. */
  function SliceTo<T>(s: seq<T>, end: int): (r: seq<T>)
    ensures |r| <= |s| && r == s[..|r|]
    ensures 0 <= end ==> |r| == Min(end, |s|)
    ensures end < 0 ==> |r| == Max(|s| + end, 0)
  {
    if end < 0 then
      (if |s| + end < 0 then [] else s[..|s| + end])
    else if end < |s| then s[..end]
    else s
  }

  /** A query's `skip(skip).limit(limit)`; a limit of 0 means no limit. */
  function SkipLimit<T>(s: seq<T>, skip: nat, limit: nat): (r: seq<T>)
    ensures forall i :: 0 <= i < |r| ==> skip + i < |s| && r[i] == s[skip + i]
    ensures limit == 0 ==> |r| == Max(|s| - skip, 0)
    ensures limit > 0 ==> |r| == Min(limit, Max(|s| - skip, 0))
  {
    if skip >= |s| then []
    else
      var rest := s[skip..];
      if limit == 0 || limit >= |rest| then rest else rest[..limit]
  }

  // ---------------------------------------------------------------------
  // populate("chatsWithHelpers")
  // ---------------------------------------------------------------------

  /** Replaces each id by its stored chat, in order; an id with no stored chat is dropped. */
  function Populate(ids: seq<string>, chats: map<string, SupportChat>): (r: seq<SupportChat>)
    ensures |r| <= |ids|
    ensures forall c :: c in r ==> exists id :: id in ids && id in chats && chats[id] == c
    ensures forall i :: 0 <= i < |ids| && ids[i] in chats ==> chats[ids[i]] in r
    ensures (forall id :: id in ids ==> id in chats) ==>
              |r| == |ids| && forall i :: 0 <= i < |ids| ==> r[i] == chats[ids[i]]
  {
    if ids == [] then []
    else
      var rest := Populate(ids[1..], chats);
      if ids[0] in chats then [chats[ids[0]]] + rest else rest
  }

  /** Listing one more id adds its stored chat, if any, after the chats already
      populated: the result keeps the order of the list. */
  lemma {:induction false} PopulateAppend(ids: seq<string>, id: string, chats: map<string, SupportChat>)
    ensures Populate(ids + [id], chats) == Populate(ids, chats) + (if id in chats then [chats[id]] else [])
  {
    if ids != [] {
      assert (ids + [id])[1..] == ids[1..] + [id];
      PopulateAppend(ids[1..], id, chats);
    } else {
      assert Populate([id], chats) == (if id in chats then [chats[id]] else []) + Populate([], chats);
    }
  }

  /** The ids the populate `match: { _id: questionId }` keeps. */
  function Matching(ids: seq<string>, questionId: string): (r: seq<string>)
    ensures forall i :: 0 <= i < |r| ==> r[i] == questionId
    ensures r != [] <==> questionId in ids
  {
    if ids == [] then []
    else
      var rest := Matching(ids[1..], questionId);
      assert questionId in ids <==> ids[0] == questionId || questionId in ids[1..];
      if ids[0] == questionId then [ids[0]] + rest else rest
  }

  /** The chats populated for `questionId`: copies of its stored chat, none when
      it is not listed or not stored. */
  lemma {:induction false} PopulateMatching(ids: seq<string>, chats: map<string, SupportChat>, questionId: string)
    ensures var found := Populate(Matching(ids, questionId), chats);
      && (found != [] <==> questionId in ids && questionId in chats)
      && forall c :: c in found ==> c == chats[questionId]
  {
    var m := Matching(ids, questionId);
    var found := Populate(m, chats);
    assert found != [] ==> found[0] in found;
    if questionId in chats {
      assert forall id :: id in m ==> id in chats;
    }
  }

  // ---------------------------------------------------------------------
  // sliceManyMessage
  // ---------------------------------------------------------------------

  /** SupportServices.sliceManyMessage: cuts every chat's messages down to
      `slice(0, limit)`, in place; `limit` is 50 when absent. */
  method SliceManyMessage(chats: array<SupportChat>, limit: Option<int> := None)
    modifies chats
    ensures forall i :: 0 <= i < chats.Length ==>
              chats[i] == old(chats[i]).(messages := SliceTo(old(chats[i]).messages, limit.GetOr(DefaultLimitMessages)))
  {
    var end := limit.GetOr(DefaultLimitMessages);
    for i := 0 to chats.Length
      invariant forall j :: 0 <= j < i ==> chats[j] == old(chats[j]).(messages := SliceTo(old(chats[j]).messages, end))
      invariant forall j :: i <= j < chats.Length ==> chats[j] == old(chats[j])
    {
      chats[i] := chats[i].(messages := SliceTo(chats[i].messages, end));
    }
  }

  // ---------------------------------------------------------------------
  // The chat table and the two owner tables
  // ---------------------------------------------------------------------

  class SupportDatabase {
    /** Support chats by id. */
    var chats: map<string, SupportChat>
    /** `chatsWithHelpers` of every patient account, by user id. */
    var users: map<string, seq<string>>
    /** `chatsWithHelpers` of every doctor account, by doctor id. */
    var doctors: map<string, seq<string>>

    /** Every chat is stored under its own id. */
    ghost predicate Valid()
      reads this
    {
      forall k :: k in chats ==> chats[k].id == k
    }

    constructor (users: map<string, seq<string>>, doctors: map<string, seq<string>>)
      ensures chats == map[] && this.users == users && this.doctors == doctors && Valid()
    {
      chats := map[];
      this.users := users;
      this.doctors := doctors;
    }

    /** `isUser ? User : Doctor`. */
    function Owners(isUser: bool): map<string, seq<string>>
      reads this
    {
      if isUser then users else doctors
    }

    /** The chat `createChat` stores: one message from the owner, with content `message`. */
    static function NewChat(id: string, uid: string, title: string, message: string,
                            messageDate: int, chatDate: int): (c: SupportChat)
      ensures c.id == id && c.user == uid && c.title == title && c.date == chatDate
      ensures |c.messages| == 1
      ensures c.messages[0].content == message && c.messages[0].isUser && c.messages[0].date == messageDate
    {
      SupportChat(id, uid, title, [Message(messageDate, message, true)], chatDate)
    }

    /** SupportServices.createChat. The chat is stored before the owner is looked
        up, so it stays stored when the owner is missing. Returns `uid`. */
    method CreateChat(uid: string, isUser: bool, title: string, message: string,
                      newChatId: string, messageDate: int, chatDate: int)
      returns (r: Result<string, SupportError>)
      requires Valid()
      requires newChatId !in chats
      modifies this
      ensures Valid()
      ensures chats == old(chats)[newChatId := NewChat(newChatId, uid, title, message, messageDate, chatDate)]
      ensures Owners(!isUser) == old(Owners(!isUser))
      ensures uid in old(Owners(isUser)) ==>
                && r == Success(uid)
                && Owners(isUser) == old(Owners(isUser))[uid := old(Owners(isUser))[uid] + [newChatId]]
      ensures uid !in old(Owners(isUser)) ==> r == Failure(NoUserFound) && Owners(isUser) == old(Owners(isUser))
      ensures r.Success? ==> GetQuestion(uid, newChatId, isUser) == Success(chats[newChatId])
    {
      var chat := NewChat(newChatId, uid, title, message, messageDate, chatDate);
      chats := chats[newChatId := chat];
      if uid !in Owners(isUser) {
        return Failure(NoUserFound);
      }
      if isUser {
        users := users[uid := users[uid] + [newChatId]];
      } else {
        doctors := doctors[uid := doctors[uid] + [newChatId]];
      }
      assert newChatId in Owners(isUser)[uid];
      return Success(uid);
    }

    /** SupportServices.getQuestions: the owner's chats, skipping `from` (0) and
        taking at most `amount` (50), each cut to `limitMessages` (50) messages. */
    method GetQuestions(uid: string, isUser: bool, options: GetQuestionsOptions := NoQuestionsOptions)
      returns (r: Result<seq<SupportChat>, SupportError>)
      ensures uid !in Owners(isUser) ==> r == Failure(NoUserFound)
      ensures uid in Owners(isUser) ==>
                var page := SkipLimit(Populate(Owners(isUser)[uid], chats),
                                      options.from.GetOr(DefaultFrom), options.amount.GetOr(DefaultAmount));
                && r.Success?
                && |r.value| == |page|
                && forall i :: 0 <= i < |page| ==>
                     r.value[i] == page[i].(messages := SliceTo(page[i].messages, options.limitMessages.GetOr(DefaultLimitMessages)))
    {
      if uid !in Owners(isUser) {
        return Failure(NoUserFound);
      }
      var page := SkipLimit(Populate(Owners(isUser)[uid], chats),
                            options.from.GetOr(DefaultFrom), options.amount.GetOr(DefaultAmount));
      var found := new SupportChat[|page|](i requires 0 <= i < |page| => page[i]);
      SliceManyMessage(found, options.limitMessages);
      return Success(found[..]);
    }

    /** SupportServices.getQuestion with the missing-question check it intends:
        the owner's chat `questionId`, cut to `limitMessages` (50) messages. */
    function GetQuestion(uid: string, questionId: string, isUser: bool,
                         options: GetQuestionOptions := NoQuestionOptions): (r: Result<SupportChat, SupportError>)
      reads this
      ensures uid !in Owners(isUser) ==> r == Failure(NoUserFound)
      ensures uid in Owners(isUser) && questionId in Owners(isUser)[uid] && questionId in chats ==>
                var c := chats[questionId];
                r == Success(c.(messages := SliceTo(c.messages, options.limitMessages.GetOr(DefaultLimitMessages))))
      ensures uid in Owners(isUser) && !(questionId in Owners(isUser)[uid] && questionId in chats) ==>
                r == Failure(NoQuestionFound)
      ensures Valid() && r.Success? ==> r.value.id == questionId
    {
      if uid !in Owners(isUser) then Failure(NoUserFound)
      else
        var found := SkipLimit(Populate(Matching(Owners(isUser)[uid], questionId), chats), 0, 1);
        PopulateMatching(Owners(isUser)[uid], chats, questionId);
        if found == [] then Failure(NoQuestionFound)
        else
          assert found[0] in Populate(Matching(Owners(isUser)[uid], questionId), chats);
          Success(found[0].(messages := SliceTo(found[0].messages, options.limitMessages.GetOr(DefaultLimitMessages))))
    }

    /** SupportServices.getQuestion as written: `!u.chatsWithHelpers` never holds
        for the populated array, which is `[]` rather than absent when nothing
        matched, so a missing question reaches `[0].messages` on `undefined`. */
    function GetQuestionAsWritten(uid: string, questionId: string, isUser: bool,
                                  options: GetQuestionOptions := NoQuestionOptions): (r: Result<SupportChat, SupportError>)
      reads this
      ensures uid !in Owners(isUser) ==> r == Failure(NoUserFound)
      ensures uid in Owners(isUser) && questionId in Owners(isUser)[uid] && questionId in chats ==>
                var c := chats[questionId];
                r == Success(c.(messages := SliceTo(c.messages, options.limitMessages.GetOr(DefaultLimitMessages))))
      ensures uid in Owners(isUser) && !(questionId in Owners(isUser)[uid] && questionId in chats) ==>
                r == Failure(UndefinedAccess)
    {
      if uid !in Owners(isUser) then Failure(NoUserFound)
      else
        var found := SkipLimit(Populate(Matching(Owners(isUser)[uid], questionId), chats), 0, 1);
        PopulateMatching(Owners(isUser)[uid], chats, questionId);
        if found == [] then Failure(UndefinedAccess)
        else
          assert found[0] in Populate(Matching(Owners(isUser)[uid], questionId), chats);
          Success(found[0].(messages := SliceTo(found[0].messages, options.limitMessages.GetOr(DefaultLimitMessages))))
    }
  }

  /** An owner asking for a chat that is not theirs gets a TypeError from the
      code as written, where "no_question_found" is meant. */
  lemma GetQuestionMissingThrows(db: SupportDatabase, uid: string, questionId: string, isUser: bool)
    requires uid in db.Owners(isUser) && questionId !in db.Owners(isUser)[uid]
    ensures db.GetQuestionAsWritten(uid, questionId, isUser) == Failure(UndefinedAccess)
    ensures db.GetQuestion(uid, questionId, isUser) == Failure(NoQuestionFound)
  {
  }
}
