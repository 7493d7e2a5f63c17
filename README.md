# Career-consultant bot: a Dafny model of its decision logic

The bot runs on Telegram. It asks a user to rate nine personal "context factors" (motivation, persistence, flexibility, and so on). It stores those ratings on the user's record and scores every income method in its catalog against them. It then recommends the best-scoring methods. It also runs small scored quizzes. This project models the parts of the bot that decide something:

- **The scoring engine** (`utils/calc_success.py`), in module `CalcSuccess`:
  - the ten-key context-factor map;
  - the derived factors F11 (complexity) and F12 (needed time) of income methods and career paths;
  - the 17-term success score;
  - the recommender, which scores the catalog, sorts it and takes the top N.

  Module `Ranking` holds the stable descending sort and Python's `[:n]` slice. Module `Rounding` holds the two-decimal rounding.
- **The quiz catalog** (`quizzes_data.py`), in module `QuizzesData`: the two quizzes with their real questions and scores, the maximum-score computation, and the lookups.
- **The quiz session** (`handlers.py`), in module `QuizSession`. The four `user_data` keys become the fields of class `Session`. The start and answer callbacks are its methods, and each is specified by a pure transition function. The module also covers callback encoding and parsing, and the five grade messages.
- **The factor survey** (`handlers/factor_handlers.py`), in module `FactorSurvey`: the nine-question table, and class `Survey` with the start, rating and cancel handlers. A rating callback can raise an exception while the conversation is still going; the model returns that as an error outcome.
- **The user write-back** (`db/crud.py`), in module `Crud`. Class `UserTable` holds the user rows. Each user is a map from column name to value, with the column list taken from `db/models.py`. It supports `update_user_context_factors` and `update_user_income`.
- **The row grouping of the database manager** (`db_manager.py`), in module `DbManager`: the Python post-processing of three query results.

Supporting modules:

- `Wrappers` holds `Option`.
- `PyText` holds the pieces of Python's `str.split`, `int()` and `str()` that the callback data needs.
- `Models` holds the records, the field lists, and the classes `IncomeMethod` and `CareerPath`.

When a query or lookup does not run, the result is an input: a sequence of rows, or `None` when the query failed. Some Python exceptions in the handlers are modelled too. These are:

- the `IndexError` or `ValueError` raised while parsing callback data;
- the `IndexError` raised on a question or option index that is out of range;
- the `KeyError` raised when the survey's answer map is missing;
- the `AttributeError` raised on a telegram id with no user.

Each becomes an outcome value, and the object is left in the state Python leaves it in when that exception propagates. Exceptions raised by Telegram calls are not modelled; see "## Left out". Neither is the `TypeError` the scorer raises on a missing criterion: `CalcSuccess.SuccessScore` and `CalcSuccess.GetRecommendedIncomeMethods` require the criteria instead, as their "## Left out" lines say.

Where the code and its surrounding documentation disagree, the model follows the code:

- The survey's rating handler stores any integer it is given. Only the keyboard restricts ratings to 0..10.
- Before the first question, `current_factor_index` defaults to 0. A rating that arrives while no survey is running therefore fails: the answer map is missing.
- `update_user_context_factors` sets every key that names a column, not only f1–f10.
- `get_method_details` keeps a row only if its factor name is non-empty and its score is present. It does not filter rows by method id. The SQL does that.

## Model

| member | source | states |
|---|---|---|
| Rounding.Round2 | utils/calc_success.py:71-72 | two-decimal rounding moves a value by at most half a cent |
| Rounding.Round2Exact | utils/calc_success.py:135 | a value with at most two decimals is left unchanged by the rounding |
| Rounding.Round2Integer | utils/calc_success.py:91-92 | whole numbers are left unchanged by the rounding |
| Rounding.Round2Monotone | utils/calc_success.py:135 | rounding preserves order, so monotonicity of the unrounded score carries over to the returned score |
| Rounding.Round2Idempotent | utils/calc_success.py:71-72 | rounding twice gives the same value as rounding once |
| PyText.Split | handlers.py:190 | `str.split` returns at least one field, and no field contains the separator |
| PyText.SplitNoSep | handlers.py:139 | a string without the separator splits into itself alone |
| PyText.SplitField | handlers.py:190-191 | a field followed by the separator splits off as the first part, ahead of the split of the rest |
| PyText.NatToString | keyboards.py:49 | `str()` of a natural number is a non-empty digit string with no leading zero |
| PyText.IntToString | keyboards.py:49 | `str()` of an integer is non-empty, and it starts with a digit exactly when the integer is non-negative |
| PyText.ParseInt | handlers.py:192-193 | `int()` succeeds exactly on an optional `-` or `+` sign followed by at least one ASCII digit |
| PyText.DigitsOfNat | handlers.py:192-193 | reading back the digits of `str(n)` gives `n` |
| PyText.ParseIntToString | handlers.py:192-193 | `int(str(n)) == n` for every integer `n` |
| PyText.IntToStringNoUnderscore | keyboards.py:49 | `str(n)` never contains the field separator `_` |
| Crud.FirstWhere | db/crud.py:43 | `.filter(...).first()` finds the first row whose attribute equals the value, and returns None only when no row matches |
| Crud.SetAttributes | db/crud.py:45-47 | the `hasattr`/`setattr` loop sets every given key that names an existing attribute, ignores every other key, and leaves unnamed attributes unchanged |
| Crud.SetAttributesIgnoresUnknown | db/crud.py:46 | adding a key that is not an attribute changes nothing |
| Crud.SetAttributesIdempotent | db/crud.py:45-47 | applying the same factor dictionary twice gives the same user as applying it once |
| Crud.UserTable.UpdateUserContextFactors | db/crud.py:34-50 | an unknown user id gives None and leaves the table unchanged; otherwise only that row changes, it becomes the attribute update of the old row, and it is returned; writing only float factor values keeps the table well typed |
| Crud.UserTable.UpdateUserIncome | db/crud.py:53-62 | an unknown telegram id gives None and leaves the table unchanged; otherwise only `current_income` of the first matching row changes; the table invariant is kept |
| Crud.ContextFactorKeysAreColumns | db/models.py:18-27 | f1..f10 are user columns, and none of them is `id`, `telegram_id` or `current_income` |
| Crud.KeyedRowOf | handlers/factor_handlers.py:130-131 | the row written for `get_user_by_telegram_id(...).id` exists exactly when the telegram id has a user, is never after that user's row, and has the same primary key |
| Crud.KeyedRowFound | handlers/factor_handlers.py:130-131 | the found user's primary key is an integer, and looking it up by `User.id` finds the keyed row |
| Crud.ReplaceRowKeepsTable | db/crud.py:45-50 | replacing one well-typed user row by another keeps the whole table well typed |
| Crud.SetIncomeKeepsUserRow | db/crud.py:59 | writing an integer income keeps the record a well-formed user row |
| Crud.SetFactorsKeepsUserRow | db/crud.py:45-47 | writing float values to factor columns keeps the record a well-formed user row |
| Ranking.InsertSorted | utils/calc_success.py:178 | inserting into a list sorted by descending score keeps it sorted |
| Ranking.InsertPermutes | utils/calc_success.py:178 | inserting adds exactly the new element and nothing else, as a multiset |
| Ranking.InsertBounded | utils/calc_success.py:178 | when every score and the new one are at most a bound, every score after the insertion is too |
| Ranking.SortDesc | utils/calc_success.py:178 | `sort(key=score, reverse=True)` gives a list with non-increasing scores that is a permutation of its input |
| Ranking.SortDescStable | utils/calc_success.py:178 | for every score, the entries with that score keep their original relative order (the sort is stable) |
| Ranking.SortDescDistinct | utils/calc_success.py:178 | sorting introduces no duplicate items |
| Ranking.PyPrefix | utils/calc_success.py:181 | `s[:n]` is a prefix of `s` of length `min(n, len(s))` for `n >= 0`, and drops `-n` elements from the end for `n < 0` |
| Ranking.TopNProperties | utils/calc_success.py:177-181 | the top-N list has length `min(N, len)`, has non-increasing scores, contains only input entries, has no duplicates when the input has none, for each score keeps a prefix of the input's entries with that score, and every entry left out scores at most every entry kept |
| Ranking.TopNSelects | utils/calc_success.py:177-181 | every entry the top-N list leaves out (counted with multiplicity) scores at most every entry it keeps |
| Ranking.WithScorePrefix | utils/calc_success.py:181 | cutting a list to a prefix cuts each score's entries to a prefix |
| CalcSuccess.FactorValue | utils/calc_success.py:29-33 | a missing (None) factor reads as 0.0, and a stored number reads as itself |
| CalcSuccess.RawFactors | utils/calc_success.py:15-27 | every value of the dictionary first built is a number or None |
| Models.DirectFactorsAreNotRegional | utils/calc_success.py:15-27 | the regional key f10 is none of the nine rated keys, and all ten are context-factor keys |
| CalcSuccess.ContextFactors | utils/calc_success.py:15-39 | the factor map has exactly the keys f1..f10; f1..f9 are the user's values with None read as 0.0; f10 is the region's value, or 0.0 without a region; so the map has every key the scorer reads |
| CalcSuccess.CalculateContextFactors | utils/calc_success.py:8-39 | the dictionary built and then patched in the loop is exactly the context-factor map |
| CalcSuccess.TimeFactor | utils/calc_success.py:67-68 | `10/max(x,1)` is positive and at most 10, and at least 1 for `x <= 10` |
| CalcSuccess.TenOverAntitone | utils/calc_success.py:67-68 | dividing 10 by a larger divisor never gives more |
| CalcSuccess.TimeFactorAntitone | utils/calc_success.py:63-68 | a higher criterion never gives a larger time factor |
| CalcSuccess.IncomeComplexityIsWholeProduct | utils/calc_success.py:52-60 | complexity is difficulty × hard skills × special knowledge, each missing criterion taken as 1; the product is whole, so rounding leaves it unchanged |
| CalcSuccess.CareerDerivedAreWhole | utils/calc_success.py:84-92 | career complexity is material assimilation × application speed and needed time is hours to master, with missing inputs taken as 1; both are whole, so rounding leaves them unchanged |
| CalcSuccess.IncomeNeededTimeBounds | utils/calc_success.py:55-72 | for speed, flexibility and engagement of at most 10, the needed time lies in [1, 1000] before and after rounding |
| CalcSuccess.IncomeNeededTimeAntitone | utils/calc_success.py:63-68 | raising speed, flexibility or engagement never increases the needed time |
| CalcSuccess.TimeProductAntitone | utils/calc_success.py:63-68 | the product of three time factors never grows when its inputs grow |
| CalcSuccess.TimeProductBounds | utils/calc_success.py:63-68 | for inputs of at most 10 the product of three time factors lies in [1, 1000] |
| CalcSuccess.RoundedWithinThousand | utils/calc_success.py:71-72 | rounding a value in [1, 1000] keeps it in [1, 1000] |
| CalcSuccess.CalculateIncomeMethodDerivedFactors | utils/calc_success.py:44-74 | the same object is returned; only F11 and F12 change, to the rounded complexity and needed time of its criteria; the raw criteria are untouched |
| CalcSuccess.CalculateCareerPathDerivedFactors | utils/calc_success.py:77-94 | the same object is returned; only F11 and F12 change, to the rounded career complexity and hours; the raw criteria are untouched |
| CalcSuccess.SuccessScore | utils/calc_success.py:99-135 | the score is the rounded 21st of a linear form in the user factors, the criteria and F11/F12 (gathered from the paired half-sums and intrinsic terms) |
| CalcSuccess.ScoreIgnoresIncomeAndLifeExperience | utils/calc_success.py:99-135 | neither the user's current income nor f2 (life experience) affects the score |
| CalcSuccess.UserFactorsNeverLowerScore | utils/calc_success.py:111-119 | raising any of f1, f3..f10 never lowers the score |
| CalcSuccess.IncomePotentialNeverLowersScore | utils/calc_success.py:116-122 | raising income potential never lowers the score |
| CalcSuccess.CostsNeverRaiseScore | utils/calc_success.py:117-127 | raising risks, financial investment or impact on the current job never raises the score |
| CalcSuccess.DerivedFactorsNeverRaiseScore | utils/calc_success.py:130-131 | a larger F11 or F12 never raises the score |
| CalcSuccess.ScoreCanBeNegative | utils/calc_success.py:108-135 | there is a user and a method with complete criteria whose score is negative (F11 = F12 = 1000) |
| CalcSuccess.QuickerMethodsNeverScoreLower | utils/calc_success.py:165-175 | when the recommender recomputes F12 before scoring, raising speed, flexibility or engagement never lowers the score |
| CalcSuccess.ScoredCatalog | utils/calc_success.py:164-175 | one pair per catalog method, in catalog order, holding the method and its score with freshly derived F11/F12 |
| CalcSuccess.UserRowHasDirectFactors | utils/calc_success.py:15-24 | every user row has numeric or empty f1..f9 |
| CalcSuccess.ScoreCatalog | utils/calc_success.py:164-175 | the scoring loop updates every method's derived factors and returns the scored catalog |
| CalcSuccess.GetRecommendedIncomeMethods | utils/calc_success.py:141-181 | an unknown telegram id gives [] and touches no method; otherwise every method's F11/F12 are recomputed and the result is the top N of the scored catalog, with the user's context factors and no region |
| CalcSuccess.RecommendForUser | utils/calc_success.py:159-181 | for a found user, every method's F11/F12 are recomputed and the result is the top N of the scored catalog under the user's context factors |
| CalcSuccess.RecommendationProperties | utils/calc_success.py:164-181 | the recommendation has length `min(N, catalog size)` for `N >= 0` and non-increasing scores; it has no duplicates when the catalog has none; ties keep catalog order; no catalog method left out scores above a recommended one |
| CalcSuccess.RecommendationsAreBest | utils/calc_success.py:164-181 | a catalog method whose scored entry is not recommended scores at most every recommended entry |
| CalcSuccess.RecommendationsFromCatalog | utils/calc_success.py:164-181 | every recommended entry is some catalog method paired with its recommender score |
| CalcSuccess.ScoredCatalogEntry | utils/calc_success.py:164-175 | every entry of the scored catalog is some catalog method paired with its recommender score |
| QuizzesData.QuestionMax | quizzes_data.py:74-78 | a question's maximum is at least 0 and at least every option's score (a missing score counts 0), and it is 0 or attained by some option |
| QuizzesData.MaxScore | quizzes_data.py:72-80 | the total maximum is never negative |
| QuizzesData.CalculateMaxScore | quizzes_data.py:67-80 | the nested loops compute the sum of the per-question maxima |
| QuizzesData.QuestionMaxTake | quizzes_data.py:74-78 | one more option takes the maximum of the running best and that option's score |
| QuizzesData.MaxScoreTake | quizzes_data.py:73-79 | one more question adds its maximum to the running total |
| QuizzesData.MaxScoreAppend | quizzes_data.py:73-79 | adding a question adds its maximum to the total |
| QuizzesData.MaxScorePrefix | quizzes_data.py:72-80 | the first k questions never have a greater maximum than the whole quiz |
| QuizzesData.SelectionWithinMax | quizzes_data.py:72-80 | the score of any one-option-per-question selection is at most the maximum score |
| QuizzesData.SelectionExtend | quizzes_data.py:72-80 | extending a selection by one option adds that option's score |
| QuizzesData.BestOption | quizzes_data.py:74-78 | a question with options and no negative score has an option worth exactly its maximum |
| QuizzesData.NonNegativePrefix | quizzes_data.py:72-80 | dropping the last question keeps every score non-negative |
| QuizzesData.MaxScoreAttained | quizzes_data.py:72-80 | when every question has options and no score is negative, some selection attains the maximum exactly |
| QuizzesData.LookupIn | quizzes_data.py:86 | `dict.get` finds None exactly when the id is absent, and otherwise returns a quiz stored under that id |
| QuizzesData.GetQuizById | quizzes_data.py:82-93 | None exactly for an id not in the catalog; otherwise the stored quiz (same questions, same order) with its computed maximum score |
| QuizzesData.GetAllQuizzesInfo | quizzes_data.py:95-107 | one entry per catalog quiz, in catalog order, with its id, its name (default "Неизвестный тест") and its maximum score |
| QuizzesData.LookupFindsEachEntry | quizzes_data.py:6-65 | catalog ids are distinct, each lookup finds its own quiz, no id contains `_`, and every quiz has a name |
| QuizzesData.QuestionMaxOfFour | quizzes_data.py:74-78 | the maximum of a four-option question is the running maximum from 0 over its four scores |
| QuizzesData.MaxScoreOfTwo | quizzes_data.py:73-79 | a two-question quiz's maximum is the sum of the two question maxima |
| QuizzesData.MaxScoreOfThree | quizzes_data.py:73-79 | a three-question quiz's maximum is the sum of the three question maxima |
| QuizzesData.Python1MaxScore | quizzes_data.py:7-40 | the Python quiz's maximum score is 30 |
| QuizzesData.Telegram1MaxScore | quizzes_data.py:41-65 | the Telegram quiz's maximum score is 20 |
| QuizzesData.CatalogMaxScores | quizzes_data.py:6-65 | "python1" has maximum score 30 and "telegram1" has 20, with their catalog names |
| QuizzesData.CatalogScoresNonNegative | quizzes_data.py:7-65 | no option of either quiz has a negative score, and every question has options |
| QuizzesData.CatalogMaxReachable | quizzes_data.py:7-80 | for both quizzes of the catalog some choice of one answer per question earns the full maximum score |
| QuizSession.ParseAnswer | handlers.py:190-193 | a parsed answer comes from callback data with at least four `_` fields, and its quiz id is the second field |
| QuizSession.StartCallbackRoundTrip | handlers.py:139 | the quiz id in `start_quiz_{id}` is recovered by taking the last field, when the id has no `_` |
| QuizSession.AnswerFields | handlers.py:190 | `ans_{quiz}_{q}_{a}` splits into exactly those four fields when none of them contains `_` |
| QuizSession.AnswerCallbackRoundTrip | handlers.py:190-193 | `ans_{quiz}_{q}_{a}` (keyboards.py:49) parses back to the same quiz id, question index and option index, when the quiz id has no `_` |
| QuizSession.PercentageScaled | handlers.py:235 | with a positive maximum the percentage is achieved/max·100 |
| QuizSession.GradeByCounts | handlers.py:235-245 | the grade is decided by the first matching threshold, stated on the integer scores: a = m, 4a ≥ 3m, 2a ≥ m, 4a ≥ m, else "try again" |
| QuizSession.NoMaximumGivesTryAgain | handlers.py:235-245 | without a positive maximum the percentage is 0 and the grade is "try again" |
| QuizSession.GradeMonotone | handlers.py:235-245 | up to the maximum score, a higher achieved score never gives a worse grade |
| QuizSession.KnownQuizHasName | handlers.py:227 | every quiz found by id has a name, so reading it at the finish cannot fail |
| QuizSession.PyIndex | handlers.py:207-208 | Python list indexing: an index is valid exactly in [-n, n), and a negative one counts from the end |
| QuizSession.StartProperties | handlers.py:139-151 | starting a known quiz sets the quiz id, index 0, score 0 and its maximum score; an unknown quiz leaves the state unchanged |
| QuizSession.AcceptAdvances | handlers.py:206-251 | an accepted answer adds the chosen option's score (missing counts 0) and advances the index by one; at the last question it reports the result and grade and clears all four keys |
| QuizSession.ChosenWithinQuestionMax | handlers.py:208-211 | a chosen option never scores more than its question's maximum |
| QuizSession.AcceptKeepsProgress | handlers.py:207-220 | an answer keeps the index within the question count and the score within the maximum of the questions answered so far |
| QuizSession.RejectedAnswerChangesNothing | handlers.py:190-204 | malformed callback data, or an answer for another quiz or question, leaves the session unchanged; a stale answer is exactly one whose quiz id or question index differs from the stored ones |
| QuizSession.AnswerKeepsInv | handlers.py:185-251 | every answer callback preserves the session invariant |
| QuizSession.ScoreWithinMax | handlers.py:211-220 | during a quiz the running score never exceeds the stored maximum score |
| QuizSession.Session.constructor | handlers.py:195-196 | a new chat has no quiz in progress |
| QuizSession.Session.StartQuiz | handlers.py:135-151 | the session fields change exactly as the start transition says, and the invariant is kept |
| QuizSession.Session.AnswerQuiz | handlers.py:185-251 | the session fields and the outcome are exactly those of the answer transition, and the invariant is kept |
| QuizSession.Session.AcceptAnswer | handlers.py:206-251 | the score update, index advance and finish step match the accept transition |
| FactorSurvey.FactorQuestionsTable | handlers/factor_handlers.py:15-37 | the table has nine entries; entry i has state i and factor name f(i+1) |
| FactorSurvey.DirectFactorsDistinct | handlers/factor_handlers.py:23-37 | the nine factor names are distinct |
| FactorSurvey.RatingCallbackRoundTrip | handlers/factor_handlers.py:57-58 | `rating_{i}` parses back to `i` |
| FactorSurvey.CollectedKeys | handlers/factor_handlers.py:107-108 | after k ratings the answer map's keys are exactly the first k factor names |
| FactorSurvey.CollectedValue | handlers/factor_handlers.py:107-108 | the j-th rating is stored as a float under the j-th factor name, and later ratings do not overwrite it |
| FactorSurvey.CollectedContents | handlers/factor_handlers.py:107-108 | after k ratings the answer map has exactly the first k factor names, each holding its rating as a float |
| FactorSurvey.CompleteSurvey | handlers/factor_handlers.py:122-131 | after nine ratings the answer map has exactly the keys f1..f9, each a column holding a float |
| FactorSurvey.CompleteSurveyKeepsUserRow | handlers/factor_handlers.py:130-131 | writing the completed answers keeps the user a well-formed row |
| FactorSurvey.Survey.constructor | handlers/factor_handlers.py:97 | a new chat has no survey keys |
| FactorSurvey.Survey.StartFactorDialog | handlers/factor_handlers.py:64-85 | index 0, an empty answer map, and the first question's state |
| FactorSurvey.Survey.CancelFactorDialog | handlers/factor_handlers.py:149-170 | both temporary keys are removed and the conversation ends |
| FactorSurvey.Survey.HandleFactorRating | handlers/factor_handlers.py:88-144 | malformed data raises and changes nothing; an index ≥ 9 ends and records nothing; a missing answer map raises; otherwise the rating is stored under the current factor name and the index advances, asking the next question while it is below 9; after the ninth rating the answers are written to the user with that telegram id, both keys are cleared and the conversation ends; an unknown telegram id raises with the answers still held |
| FactorSurvey.Survey.StoreRating | handlers/factor_handlers.py:107-111 | the rating is stored as a float under the current factor name and the index advances by one |
| FactorSurvey.Survey.SaveFactors | handlers/factor_handlers.py:124-143 | saves exactly when the telegram id has a user; the row with that user's primary key gets the answers, the table stays well typed and the survey keys are cleared |
| DbManager.FirstRowOf | db_manager.py:206 | the first row of a method, or None when the method has no row |
| DbManager.MethodIds | db_manager.py:203-215 | the method ids of the rows, each once |
| DbManager.MethodIdsInFirstAppearanceOrder | db_manager.py:206-215 | the ids are listed in the order of their first rows |
| DbManager.FactorsOfKeys | db_manager.py:213 | a method's factor map holds exactly the factor names of that method's rows |
| DbManager.FactorsOfLastScore | db_manager.py:213 | a repeated factor name keeps the score of the last row of that method with that name |
| DbManager.GetAllMethodsWithFactors | db_manager.py:198-215 | a failed or empty query gives []; otherwise the grouping loop returns the grouped methods |
| DbManager.GroupedIdsDistinct | db_manager.py:206-215 | one grouped entry per method id |
| DbManager.GroupedMethodsHaveRows | db_manager.py:203-215 | every grouped entry comes from some row |
| DbManager.GroupedCoversEveryRow | db_manager.py:203-215 | every row's method has a grouped entry |
| DbManager.GroupedInFirstAppearanceOrder | db_manager.py:206-215 | the entries come in the order in which their methods first appear |
| DbManager.GroupedEntryContents | db_manager.py:206-213 | an entry's name and description come from its method's first row, and its factors are that method's factor map |
| DbManager.AbsorbStep | db_manager.py:203-213 | one loop iteration turns the dictionary for the first i rows into the dictionary for the first i+1 rows |
| DbManager.DictValuesAreGrouped | db_manager.py:215 | `list(methods_dict.values())` lists the entries in insertion order, which is the grouped result |
| DbManager.DetailFactors | db_manager.py:253-256 | the details' factors hold exactly the names of rows with a non-empty name and a score, and a repeated name keeps the last such score |
| DbManager.GetMethodDetails | db_manager.py:242-257 | None exactly for a failed or empty query; otherwise the id, name and description of the first row with the factors of all rows |
| DbManager.LastWins | db_manager.py:154 | a dict comprehension holds every key of the pairs, and each key keeps the value of its last pair |
| DbManager.UserPreferences | db_manager.py:152-154 | a failed or empty query gives {}; otherwise factor id maps to preference score, with the last pair winning |

## Left out

- Telegram transport is not modelled: sending and editing messages, keyboards, phrase files and logging are all output.
- Every Telegram call (`reply_html`, `reply_text`, `edit_message_text`, `send_message`) is assumed to succeed. In the quiz answer handler the score is written at handlers.py:211, the feedback is sent at handlers.py:216, and the index only advances at handlers.py:219. If the send raises, the score is kept and the index is not, so pressing the same button again counts the answer twice. AnswerKeepsInv and ScoreWithinMax hold only when no Telegram call raises. In the survey, the answers are saved at handlers/factor_handlers.py:131, the message is edited at :134, and the two keys are popped at :142-143. If the edit raises, both keys stay after the save. The quiz-selection keyboard is not part of this model, and neither are the main menu or the common and income handlers. Only the callback data that the handlers parse is modelled.
- Persistence is not modelled: SQL text, connections, ORM sessions, `commit` and `refresh`, the JSON loaders, and the schema setup. Query results are inputs. The `updated_at` column is set at commit time (`onupdate=func.now()`), and that timestamp is not modelled. `database.save_quiz_result` is represented by the `QuizResult` value that the finishing answer returns.
- Floating point is not modelled. Scores are exact reals. `round(x, 2)` is modelled as round-half-up to two decimals, which is only an approximation of Python's rounding of binary floats. The properties about it are the ones that hold for any monotone, idempotent rounding. The quiz percentage is an exact real.
- Python's `int()` is modelled only as far as the callback data needs it: an optional `-` or `+` sign followed by ASCII digits. Surrounding whitespace, `_` digit separators and non-ASCII digits are not modelled, and the bot never produces them.
- Column types are not enforced on the model's records. `setattr` may store a value of any type and the model stores it as given. A row stays a well-formed user row only when numbers are written to numeric columns, which is what the survey does.
- The relationship attributes of the ORM user (income maps and so on) and its other non-column attributes (methods, `metadata`, dunders such as `__tablename__`, `_sa_instance_state`) are not attributes in the model. `hasattr` and `setattr` on them are not modelled; no caller passes such a key.
- Preference-weighted scoring and region association are not modelled, because no code implements them. The recommender never passes a region, so F10 is always 0.0 on that path.
- Validation of the income amount in the income handler is not modelled. `update_user_income` takes any integer.
- `get_quiz_by_id` copies its dictionaries so that callers cannot change the catalog. The model's values are immutable, so the copy is not modelled; the catalog cannot change in either case.
- CalcSuccess.SuccessScore: requires all ten criteria the scorer reads to be present. The source raises a TypeError on a missing one, and the model does not model that error.
- CalcSuccess.GetRecommendedIncomeMethods: requires every catalog method to have those criteria, for the same reason.
- FactorSurvey.FactorQuestionsTable: does not state the text keys of the nine questions. They only select phrases for messages.
- QuizSession.GradeMonotone: holds only for achieved scores up to the maximum. Above it, the grade drops from Perfect to Excellent, because the percentage passes 100. A score above the maximum needs a failed Telegram call (see the line on Telegram calls).
- QuizSession.GradeByCounts: is stated on the exact real percentage, not on its float form. The two can differ only by float error.
