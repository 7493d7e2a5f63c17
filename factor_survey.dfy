/**
 * The context-factor survey: a conversation of nine rating questions whose
 * answers collect in `user_data['factors_data']`, indexed by
 * `user_data['current_factor_index']`, and are written onto the user after
 * the ninth.
 */
module FactorSurvey {
  import opened Wrappers
  import opened Models
  import opened PyText
  import Crud

  /** One entry of `FACTOR_QUESTIONS`: the conversation state, the user column it fills, and its phrase key. */
  datatype FactorQuestion = FactorQuestion(state: int, factorName: string, textKey: string)

  /** `FACTOR_QUESTIONS`: the states ASK_F1 .. ASK_F9 are 0 .. 8. */
  const FactorQuestions: seq<FactorQuestion> := [
    FactorQuestion(0, F1, "q_f1_motivation"),
    FactorQuestion(1, F2, "q_f2_life_experience"),
    FactorQuestion(2, F3, "q_f3_persistence"),
    FactorQuestion(3, F4, "q_f4_flexibility"),
    FactorQuestion(4, F5, "q_f5_emotional_intelligence"),
    FactorQuestion(5, F6, "q_f6_health_energy"),
    FactorQuestion(6, F7, "q_f7_self_perception"),
    FactorQuestion(7, F8, "q_f8_environment_support"),
    FactorQuestion(8, F9, "q_f9_resource_access")]

  /** The table has nine entries; entry i has state i and fills the i-th direct factor. */
  lemma FactorQuestionsTable()
    ensures |FactorQuestions| == 9 == |DirectFactors|
    ensures forall i :: 0 <= i < 9 ==> FactorQuestions[i].state == i && FactorQuestions[i].factorName == DirectFactors[i]
  {
  }

  /** The nine factor names are distinct. */
  lemma DirectFactorsDistinct()
    ensures forall i, j :: 0 <= i < j < |DirectFactors| ==> DirectFactors[i] != DirectFactors[j]
  {
    assert forall i :: 0 <= i < 9 ==> DirectFactors[i][1] == "123456789"[i];
  }

  /** What a handler hands back to the conversation: the next state, or the end. */
  datatype Reply = Ask(state: int) | EndConversation

  /**
   * The exceptions `handle_factor_rating` can raise: a callback that does
   * not parse, no answer dictionary in `user_data`, and no user with the
   * sender's Telegram id.
   */
  datatype SurveyError = BadCallback | NoFactorsData | UserNotFound

  datatype RatingOutcome = Replied(reply: Reply) | Raised(error: SurveyError)

  /** The callback data of rating button `i`; the keyboard offers 0 .. 10. */
  function RatingCallback(i: int): string
  {
    "rating_" + IntToString(i)
  }

  /** `int(query.data.split('_')[1])`. */
  function ParseRating(data: string): Option<int>
  {
    var parts := Split(data, '_');
    if |parts| < 2 then None else ParseInt(parts[1])
  }

  /** Every rating button parses back to its rating. */
  lemma RatingCallbackRoundTrip(i: int)
    ensures ParseRating(RatingCallback(i)) == Some(i)
  {
    assert RatingCallback(i) == "rating" + ['_'] + IntToString(i);
    SplitField("rating", '_', IntToString(i));
    IntToStringNoUnderscore(i);
    SplitNoSep(IntToString(i), '_');
    ParseIntToString(i);
  }

  /** The answer dictionary after the given ratings, in question order. */
  function Collected(ratings: seq<int>): map<string, Value>
    requires |ratings| <= |DirectFactors|
  {
    if |ratings| == 0 then map[]
    else Collected(ratings[..|ratings| - 1])[DirectFactors[|ratings| - 1] := Real(ratings[|ratings| - 1] as real)]
  }

  /** After k ratings the dictionary's keys are the first k factor names. */
  lemma {:induction false} CollectedKeys(ratings: seq<int>)
    requires |ratings| <= |DirectFactors|
    ensures Collected(ratings).Keys == set j | 0 <= j < |ratings| :: DirectFactors[j]
  {
    if |ratings| > 0 {
      var n := |ratings| - 1;
      CollectedKeys(ratings[..n]);
      assert (set j | 0 <= j < |ratings| :: DirectFactors[j])
          == (set j | 0 <= j < n :: DirectFactors[j]) + {DirectFactors[n]};
    }
  }

  /** The j-th rating sits under the j-th factor name: later ratings fill other names. */
  lemma {:induction false} CollectedValue(ratings: seq<int>, j: nat)
    requires |ratings| <= |DirectFactors| && j < |ratings|
    ensures DirectFactors[j] in Collected(ratings)
    ensures Collected(ratings)[DirectFactors[j]] == Real(ratings[j] as real)
  {
    var n := |ratings| - 1;
    if j < n {
      DirectFactorsDistinct();
      assert DirectFactors[j] != DirectFactors[n];
      CollectedValue(ratings[..n], j);
    }
  }

  /**
   * After k ratings the dictionary holds exactly the first k factor names,
   * each mapped to its rating as a float.
   */
  lemma CollectedContents(ratings: seq<int>)
    requires |ratings| <= |DirectFactors|
    ensures Collected(ratings).Keys == set j | 0 <= j < |ratings| :: DirectFactors[j]
    ensures forall j :: 0 <= j < |ratings| ==> Collected(ratings)[DirectFactors[j]] == Real(ratings[j] as real)
  {
    CollectedKeys(ratings);
    forall j | 0 <= j < |ratings|
      ensures Collected(ratings)[DirectFactors[j]] == Real(ratings[j] as real)
    {
      CollectedValue(ratings, j);
    }
  }

  /**
   * After all nine ratings the dictionary has exactly the keys f1 .. f9,
   * every value a float, so writing it keeps a user row well typed.
   */
  lemma CompleteSurvey(ratings: seq<int>)
    requires |ratings| == |DirectFactors|
    ensures Collected(ratings).Keys == set k | k in DirectFactors
    ensures Crud.FactorValuesOnly(Collected(ratings))
  {
    CollectedContents(ratings);
    var m := Collected(ratings);
    forall k | k in m
      ensures k in ContextFactorKeys && m[k].Real?
    {
      var j :| 0 <= j < |ratings| && DirectFactors[j] == k;
      assert ContextFactorKeys[j] == k;
    }
    forall k | k in DirectFactors
      ensures k in m
    {
      var j :| 0 <= j < |DirectFactors| && DirectFactors[j] == k;
    }
  }

  /** Writing a completed survey keeps a user row typed as the schema says. */
  lemma CompleteSurveyKeepsUserRow(ratings: seq<int>, user: Record)
    requires |ratings| == |DirectFactors|
    requires IsUserRow(user)
    ensures IsUserRow(Crud.SetAttributes(user, Collected(ratings)))
  {
    CompleteSurvey(ratings);
    Crud.SetFactorsKeepsUserRow(user, Collected(ratings));
  }

  /** The two survey keys of one chat's `user_data`. */
  class Survey {
    var currentFactorIndex: Option<int>
    var factorsData: Option<map<string, Value>>
    /** The ratings received since the survey started. */
    ghost var ratings: seq<int>

    /**
     * Either neither key is present, or the index counts the ratings and the
     * dictionary holds them; a user lookup that failed after the ninth
     * rating leaves both keys behind with the index at 9.
     */
    ghost predicate Valid()
      reads this
    {
      || (currentFactorIndex.None? && factorsData.None? && ratings == [])
      || (&& currentFactorIndex == Some(|ratings|) && |ratings| <= |DirectFactors|
          && factorsData == Some(Collected(ratings)))
    }

    constructor ()
      ensures Valid() && currentFactorIndex.None? && factorsData.None?
    {
      currentFactorIndex, factorsData := None, None;
      ratings := [];
    }

    /** `start_factor_dialog`: index 0, an empty dictionary, and the first question's state. */
    method StartFactorDialog() returns (reply: Reply)
      modifies this
      ensures Valid()
      ensures currentFactorIndex == Some(0) && factorsData == Some(map[])
      ensures reply == Ask(FactorQuestions[0].state)
    {
      currentFactorIndex := Some(0);
      factorsData := Some(map[]);
      ratings := [];
      reply := Ask(FactorQuestions[0].state);
    }

    /** `cancel_factor_dialog`: both keys removed, the conversation ends. */
    method CancelFactorDialog() returns (reply: Reply)
      modifies this
      ensures Valid()
      ensures currentFactorIndex.None? && factorsData.None?
      ensures reply == EndConversation
    {
      currentFactorIndex, factorsData := None, None;
      ratings := [];
      reply := EndConversation;
    }

    /**
     * `handle_factor_rating`: store the rating of the current question as a
     * float and advance by one; after the ninth, write the dictionary onto
     * the sender's user row and remove both keys. Entered with the index at
     * 9 or beyond it ends without recording anything.
     */
    method HandleFactorRating(data: string, users: Crud.UserTable, telegramId: int) returns (outcome: RatingOutcome)
      requires Valid() && users.Valid()
      modifies this, users
      ensures Valid() && users.Valid()
      ensures ParseRating(data).None? ==>
        outcome == Raised(BadCallback) && unchanged(this) && unchanged(users)
      ensures ParseRating(data).Some? && old(currentFactorIndex).GetOr(0) >= |FactorQuestions| ==>
        outcome == Replied(EndConversation) && unchanged(this) && unchanged(users)
      ensures ParseRating(data).Some? && old(currentFactorIndex).GetOr(0) < |FactorQuestions| && old(factorsData).None? ==>
        outcome == Raised(NoFactorsData) && unchanged(this) && unchanged(users)
      ensures ParseRating(data).Some? && old(currentFactorIndex).GetOr(0) < |FactorQuestions| && old(factorsData).Some? ==>
        var index := old(currentFactorIndex).value;
        var answers := old(factorsData).value[FactorQuestions[index].factorName := Real(ParseRating(data).value as real)];
        && (index + 1 < |FactorQuestions| ==>
              && outcome == Replied(Ask(FactorQuestions[index + 1].state))
              && ratings == old(ratings) + [ParseRating(data).value]
              && currentFactorIndex == Some(index + 1) && factorsData == Some(answers)
              && unchanged(users))
        && (index + 1 == |FactorQuestions| && Crud.FindByTelegramId(old(users.rows), telegramId).None? ==>
              && outcome == Raised(UserNotFound)
              && ratings == old(ratings) + [ParseRating(data).value]
              && currentFactorIndex == Some(index + 1) && factorsData == Some(answers)
              && unchanged(users))
        && (index + 1 == |FactorQuestions| && Crud.FindByTelegramId(old(users.rows), telegramId).Some? ==>
              var i := Crud.KeyedRowOf(old(users.rows), telegramId).value;
              && outcome == Replied(EndConversation)
              && currentFactorIndex.None? && factorsData.None?
              && users.rows == old(users.rows)[i := Crud.SetAttributes(old(users.rows)[i], answers)])
    {
      var rating := ParseRating(data);
      if rating.None? {
        return Raised(BadCallback);
      }
      var currentIndex := currentFactorIndex.GetOr(0);
      if currentIndex >= |FactorQuestions| {
        return Replied(EndConversation);
      }
      if factorsData.None? {
        return Raised(NoFactorsData);
      }
      StoreRating(rating.value);
      var nextIndex := currentIndex + 1;
      if nextIndex < |FactorQuestions| {
        return Replied(Ask(FactorQuestions[nextIndex].state));
      }
      var saved := SaveFactors(users, telegramId);
      if !saved {
        return Raised(UserNotFound);
      }
      outcome := Replied(EndConversation);
    }

    /** Store the rating under the current question's factor name and advance the index by one. */
    method StoreRating(rating: int)
      requires Valid() && factorsData.Some? && currentFactorIndex.Some? && currentFactorIndex.value < |FactorQuestions|
      modifies this
      ensures Valid()
      ensures ratings == old(ratings) + [rating]
      ensures currentFactorIndex == Some(old(currentFactorIndex).value + 1)
      ensures factorsData == Some(old(factorsData).value[FactorQuestions[old(currentFactorIndex).value].factorName := Real(rating as real)])
    {
      FactorQuestionsTable();
      var currentQuestion := FactorQuestions[currentFactorIndex.value];
      factorsData := Some(factorsData.value[currentQuestion.factorName := Real(rating as real)]);
      ratings := ratings + [rating];
      assert ratings[..|ratings| - 1] == old(ratings);
      currentFactorIndex := Some(currentFactorIndex.value + 1);
    }

    /**
     * The end of the survey: look the sender up by Telegram id and write the
     * dictionary onto the row with that user's primary key, then remove both
     * keys. No such user is an error that leaves everything as it was.
     */
    method SaveFactors(users: Crud.UserTable, telegramId: int) returns (saved: bool)
      requires Valid() && users.Valid() && currentFactorIndex == Some(|FactorQuestions|)
      modifies this, users
      ensures Valid() && users.Valid()
      ensures saved == Crud.FindByTelegramId(old(users.rows), telegramId).Some?
      ensures !saved ==> unchanged(this) && unchanged(users)
      ensures saved ==>
        var i := Crud.KeyedRowOf(old(users.rows), telegramId).value;
        && currentFactorIndex.None? && factorsData.None?
        && users.rows == old(users.rows)[i := Crud.SetAttributes(old(users.rows)[i], old(factorsData).value)]
    {
      var found := Crud.FindByTelegramId(users.rows, telegramId);
      if found.None? {
        return false;
      }
      Crud.KeyedRowFound(users.rows, telegramId);
      var userDbId := users.rows[found.value]["id"].i;
      assert Crud.FactorValuesOnly(factorsData.value) by {
        CompleteSurvey(ratings);
      }
      var updated := users.UpdateUserContextFactors(userDbId, factorsData.value);
      currentFactorIndex, factorsData := None, None;
      ratings := [];
      saved := true;
    }
  }
}
