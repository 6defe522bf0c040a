# Welfare dashboard: a verified model of its calculation core

This project models, in Dafny, the rule-based core of a welfare and personal-finance dashboard. The dashboard has two parts: a React client (`welfare-dashboard-demo`) and a FastAPI server (`backend`). The model covers:

- **Recognised income and eligibility.** The client computes a simplified monthly recognised income (소득인정액): 70 % of earned income plus a monthly yield on real estate, deposits and other assets. It derives two demo eligibility flags from it. The server grades the recognised income against a median-income table for household sizes 1 to 4, as Green, Yellow or Red. Modules: `App`, `WelfareService`, `WelfareResults`.
- **The asset form and the dashboard pages.** These are the record every screen shares, its field updaters and input conversions, and the portfolio slices, totals, ratios, donut arcs and bar widths. They also cover the loan total and the maturity estimate. Modules: `AssetInput`, `MyDataAssets`, `MyDataFinance`, `SavingsOverview`.
- **Savings switch advice.** On the client, the DSA screen picks the best viable product from a fixed market table. On the server, the recommender:
  - reads product records with tolerant number parsers;
  - groups their term options by product code;
  - scores each (product, option) pair;
  - writes at most five reasons;
  - ranks the candidates by score, net gain and rate with a stable sort;
  - advises switching when the best candidate gains.
  The request schema of the endpoint is modelled too. Modules: `DSAEngine`, `FinanceParse`, `FinanceRecommendation`, `FinanceRouter`, `StableSort`.
- **Welfare programme recommendation.** This covers the payload the client builds from the wizard's selections and the region-name normalisation of the map. It also covers the provider's search keywords and record mapping, and the additive programme score with its stable ranking. Modules: `WelfareApi`, `KoreaMap`, `WelfareProvider`, `WelfareRecommendation`.
- **The chat assistant.** On the client, a hand-written scanner finds numbers with unit suffixes (억, 만, 천) in Korean text, drops age and head-count contexts, and picks the number nearest to a field's keyword. Those figures are merged into the form, and the message list moves through user, summary, pending and resolved turns. On the server, the history is converted to the language model's turn format and the user's financial context is rendered as a summary block. Modules: `ChatScanner`, `ChatBot`, `ChatSession`, `ChatService`.

`Common` holds the shared vocabulary:

- JavaScript's `Math.round` (the floor of x + 1/2);
- Python's `round` (half to even), also to two and three places;
- the trimming, slicing, lower-casing and searching the code applies to text.

`Location` models the browser's URL fragment. Assigning `location.hash` percent-encodes a route's non-ASCII characters, and `decodeURIComponent` reads them back. The client's hash routing reads its routes through this fragment.

`PyValues` models the dynamically typed values the server inspects after JSON decoding. It also models how a Python dictionary treats such a value as a key. A number is compared by its value, so `True`, `1` and `1.0` are one key. A list or a dictionary has no hash, and using one as a key raises `TypeError`. The option index and the product lookup use this, and such a raise becomes status 500 at the endpoint.

Money, rates and months are `real`. Figures the client reads back from storage, where a field may be missing, use the `StoredForm` view of the form. In that view every figure is optional. The lemma `AssetInput.Stored` gives the view of a complete form.

Update in place is modelled as imperative Dafny where the source works step by step:

- the chat session is a class whose methods change its message list;
- the intent reader, the number scanner, the option index, the candidate loops, the donut cursor and the region-name search are methods with loops, each proved against a specification function.

Everything else is functions and lemmas.

## Model

| member | source | states |
|---|---|---|
| App.RecognizeIncome | welfare-dashboard-demo/src/App.tsx:48-57 | the recognised total is the rounded sum of 70 % of earned income and the monthly conversions of real estate (4 %), deposits (2 %) and other assets (3 %); the per-capita figure is the total over the household size, at least 1, rounded |
| App.Welfare | welfare-dashboard-demo/src/App.tsx:59-66 | basic-allowance eligibility holds exactly when the per-capita figure is under 700,000, micro-finance eligibility exactly when the total is under 2,500,000 |
| App.PerCapitaBounds | welfare-dashboard-demo/src/App.tsx:55 | the per-capita figure is within half a won of total / max(1, size); for a household of at most one it is the total itself |
| App.MicroFinanceImpliesBaseForLargeHouseholds | welfare-dashboard-demo/src/App.tsx:55-65 | in a household of four or more, micro-finance eligibility implies basic-allowance eligibility |
| App.RecognitionMonotone | welfare-dashboard-demo/src/App.tsx:50-54 | more income or more assets never lower the recognised total |
| App.Navigate | welfare-dashboard-demo/src/App.tsx:46 | the hash written always starts with `/`; a path that already does is written unchanged, any other gets a `/` in front |
| App.RouteOfHash | welfare-dashboard-demo/src/App.tsx:42 | an empty hash or a bare `#` reads as `/`; otherwise the route is the hash without its `#` |
| App.NavigateRoundTrip | welfare-dashboard-demo/src/App.tsx:38-46 | the route the hash listener reads back after `navigate(p)` equals the normalised `p` exactly when every character of it is one the fragment keeps (otherwise it is the percent-encoded form); it always starts with `/`, navigating to it again reads back the same route, and navigating twice equals navigating once |
| App.ParseJsNumber | welfare-dashboard-demo/src/App.tsx:95 | `Number()` of a route tail, blanks around it ignored: the empty text is 0, digits only are their decimal value, a `+` in front keeps the value of the unsigned decimal after it and a `-` in front negates it, and a sign before anything else is NaN |
| App.StepAfterRoute | welfare-dashboard-demo/src/App.tsx:94-96 | a `/wizard/n` route with n equal to 0, 1 or 2 selects step n; every other route keeps the current step |
| App.WizardRouteSelectsStep | welfare-dashboard-demo/src/App.tsx:94-116 | the route each wizard button navigates to, as the hash listener reads it back, selects exactly that button's step, whatever step was shown before |
| App.WizardRoute | welfare-dashboard-demo/src/App.tsx:38-46 | a wizard route `/wizard/n` is read back by the hash listener unchanged |
| App.SignedWizardRoute | welfare-dashboard-demo/src/App.tsx:94-96 | a typed route `/wizard/+d` selects step d, `/wizard/-0` selects step 0 (negative zero equals 0), and `/wizard/-1`, `/wizard/-2` keep the current step |
| App.SignedStepText | welfare-dashboard-demo/src/App.tsx:95 | `Number("+d")` is d and `Number("-d")` is -d for a digit d |
| App.StepOfTail | welfare-dashboard-demo/src/App.tsx:94-96 | a `/wizard/` route whose tail reads as the number x selects step x when x is 0, 1 or 2 and otherwise keeps the current step |
| App.HashRouteOfPrefixed | welfare-dashboard-demo/src/App.tsx:38-46 | navigating to a fragment-safe prefix starting with `/` followed by any text reads back that prefix followed by the text as the fragment encodes it |
| App.WelfareCategoryRoundTrip | welfare-dashboard-demo/src/App.tsx:90-92 | navigating to `/welfare/<name>` reads back a route that starts with `/welfare/`, and the category page receives exactly `name` after `decodeURIComponent`, for every name without `%`, tab or newline, whatever characters it has beyond ASCII |
| App.WelfareHubCategories | welfare-dashboard-demo/src/pages/WelfareHub.tsx:6-9 | each of the four category buttons of the welfare hub (주거, 일자리, 인권, 평생교육) opens the category page of its own name |
| Location.EncodeChar | welfare-dashboard-demo/src/App.tsx:46 | assigning `location.hash` keeps a printable ASCII character other than space, `"`, `<`, `>` and backquote as itself, drops a tab or newline, and writes any other character as a `%`-escape; what it writes is always fragment-safe |
| Location.FragmentEncode | welfare-dashboard-demo/src/App.tsx:46 | the stored fragment is always fragment-safe, and a fragment-safe text is stored unchanged |
| Location.EncodeAppend | welfare-dashboard-demo/src/App.tsx:46 | the fragment of a concatenation is the concatenation of the fragments |
| Location.DecodeUriComponent | welfare-dashboard-demo/src/App.tsx:91 | `decodeURIComponent` of a fragment-safe text without `%` is that text; a malformed, overlong or surrogate escape is a URIError (None) |
| Location.DecodeEncodedChar | welfare-dashboard-demo/src/App.tsx:46-91 | the escapes written for any character decode back to that character and take exactly three characters per UTF-8 byte |
| Location.DecodeChar | welfare-dashboard-demo/src/App.tsx:46-91 | decoding what the fragment wrote for one character (not `%`, tab or newline) in front of any text gives that character in front of the decoded text |
| Location.DecodeFragment | welfare-dashboard-demo/src/App.tsx:46-91 | `decodeURIComponent` gives back exactly what was assigned to the fragment, for every text without `%`, tab or newline |
| AssetInput.Set | welfare-dashboard-demo/src/components/AssetInput.tsx:37-39 | the chosen top-level field takes the new value; every other field, the savings product and the loans are unchanged |
| AssetInput.SetSv | welfare-dashboard-demo/src/components/AssetInput.tsx:41-43 | the chosen savings figure takes the new value; the other savings figures, the product name, every top-level field and the loans are unchanged |
| AssetInput.SetProductName | welfare-dashboard-demo/src/components/AssetInput.tsx:104-105 | only the product name changes |
| AssetInput.OnInputShownBack | welfare-dashboard-demo/src/components/AssetInput.tsx:52-125 | a number typed into a box is shown back by that box; the percent boxes store a fraction and show it times 100; the household box shows at least 1; an emptied box shows 0 (1 for the household box); no other box, no loan and not the product name changes |
| AssetInput.HouseholdInputAtLeastOne | welfare-dashboard-demo/src/components/AssetInput.tsx:58-59 | after an edit of the household box the size is at least 1, and exactly 1 when the box was emptied |
| DSAEngine.InterestForMonths | welfare-dashboard-demo/src/components/DSAEngine.tsx:16-18 | the interest is 0 when the term, the principal or the rate is 0, and non-negative for non-negative inputs |
| DSAEngine.Viable | welfare-dashboard-demo/src/components/DSAEngine.tsx:26 | exactly the market options whose minimum term is at most the months remaining |
| DSAEngine.Compare | welfare-dashboard-demo/src/components/DSAEngine.tsx:21-31 | the penalty is principal × penalty rate, the net gain is the rounded best interest less the current interest and the penalty, and the gain share lies in [0, 1] |
| DSAEngine.BarWidth | welfare-dashboard-demo/src/components/DSAEngine.tsx:96 | the gain bar is 10 % to 100 % wide and shows the gain share itself from 10 % up |
| DSAEngine.MarketEstimates | welfare-dashboard-demo/src/components/DSAEngine.tsx:105-106 | one estimate per market option, in table order, each the rounded interest at that option's rate |
| DSAEngine.BestIsHighestViable | welfare-dashboard-demo/src/components/DSAEngine.tsx:26-27 | with no viable option the first market option is chosen; otherwise the choice is viable and no viable option has a higher rate |
| DSAEngine.BestByTerm | welfare-dashboard-demo/src/components/DSAEngine.tsx:10-27 | with the declared table, terms under six months get the 3.9 % option and terms from six months the 4.4 % option |
| DSAEngine.NoPenaltyBetterRateAdvisesSwitch | welfare-dashboard-demo/src/components/DSAEngine.tsx:28-29 | with no penalty and a best rate at least the current one, the net gain is not negative, so switching is advised |
| WelfareService.MiddleIncome | backend/app/services/welfare_service.py:7 | the table lists exactly the household sizes 1 to 4, with values from 2,000,000 to 5,400,000 |
| WelfareService.Standard | backend/app/services/welfare_service.py:20 | the standard is 0 exactly for a size the table does not list, and never negative |
| WelfareService.ConvertedAssetIncome | backend/app/services/welfare_service.py:18 | the asset income is non-negative and is 0 exactly when the assets are within the 5,400,000 exemption |
| WelfareService.CalculateIncomeRecognition | backend/app/services/welfare_service.py:16-36 | the report carries the table standard, the recognised income rounded half-to-even, the grade of the exact ratio, and a ratio within half a cent of the exact one |
| WelfareService.GradeBands | backend/app/services/welfare_service.py:23-28 | Green exactly up to 80, Yellow exactly above 80 up to 100, Red exactly above 100 |
| WelfareService.NoStandardIsGreen | backend/app/services/welfare_service.py:20-24 | for a household size outside 1-4 the standard and the ratio are 0 and the grade is Green, whatever the income |
| WelfareService.ExemptAssetsAddNothing | backend/app/services/welfare_service.py:18-19 | assets within the exemption leave the recognised income equal to the monthly income |
| WelfareService.GradeMonotone | backend/app/services/welfare_service.py:18-28 | at the same household size, more income or more assets never give a better grade |
| WelfareRecommendation.PreferencePoints | backend/app/services/welfare_recommendation.py:16-22 | no points exactly when there are no preferences or no lower-cased category is shared; otherwise 55 plus 5 per shared category, so at least 60 |
| WelfareRecommendation.RegionPoints | backend/app/services/welfare_recommendation.py:24-27 | 15 points exactly when the programme is nationwide or lists the user's non-empty region code, 0 otherwise |
| WelfareRecommendation.AgePoints | backend/app/services/welfare_recommendation.py:29-34 | 15 points exactly when no age is given or it lies in the programme's age range (0 to 200 by default), 0 otherwise |
| WelfareRecommendation.JobPoints | backend/app/services/welfare_recommendation.py:36-39 | 10 points exactly when the programme names no job or names the user's non-empty job, 0 otherwise |
| WelfareRecommendation.IncomePoints | backend/app/services/welfare_recommendation.py:41-44 | 5 points exactly when a recognised income is given, 0 otherwise |
| WelfareRecommendation.ScoreProgram | backend/app/services/welfare_recommendation.py:5-46 | the score accumulated step by step equals the sum of the five parts |
| WelfareRecommendation.ScoreBands | backend/app/services/welfare_recommendation.py:14-46 | a programme without a category match scores at most 45, one with a match at least 60 |
| WelfareRecommendation.PyRound2OfWhole | backend/app/services/welfare_recommendation.py:77 | rounding a whole score to two places leaves it unchanged |
| WelfareRecommendation.ScoredCopy | backend/app/services/welfare_recommendation.py:76-77 | the copy keeps the programme and carries its score |
| WelfareRecommendation.ScoredAll | backend/app/services/welfare_recommendation.py:66-78 | one scored copy per fetched programme, in fetch order |
| WelfareRecommendation.RecommendWelfare | backend/app/services/welfare_recommendation.py:66-82 | the result is the stable descending sort of the scored copies by score |
| WelfareRecommendation.RankingProperties | backend/app/services/welfare_recommendation.py:80-82 | the ranking is a permutation of the scored copies, scores never increase along it, and programmes with equal scores keep their fetch order |
| WelfareRecommendation.MatchOutranks | backend/app/services/welfare_recommendation.py:16-46 | a programme with a category match outranks every programme without one |
| StableSort.SortDesc | backend/app/services/welfare_recommendation.py:81 | the sort keeps length and elements: its output is a permutation of its input |
| StableSort.SortDescSorted | backend/app/services/welfare_recommendation.py:81 | no element of the output has a key greater than an earlier element's key |
| StableSort.SortDescStable | backend/app/services/welfare_recommendation.py:81 | for every key, the elements carrying it appear in the output in their input order |
| StableSort.SortDescHead | welfare-dashboard-demo/src/components/DSAEngine.tsx:27 | the head of the output is the first input element whose key no other element exceeds |
| StableSort.FirstMaxIndexIsFirstMax | welfare-dashboard-demo/src/components/DSAEngine.tsx:27 | the index found holds a key no element exceeds, and every earlier element has a strictly smaller key |
| FinanceParse.ParseFloat | backend/app/services/finance_recommendation.py:24-32 | None gives None, a number (a boolean included) gives its float value, a list or a dictionary gives None |
| FinanceParse.ParseInt | backend/app/services/finance_recommendation.py:35-43 | an integer is kept; None, a float, a list or a dictionary gives None |
| FinanceParse.KeepNumericChars | backend/app/services/finance_recommendation.py:51 | the cleaned text holds exactly the digits, points and minus signs of the input |
| FinanceParse.ParseCurrency | backend/app/services/finance_recommendation.py:46-57 | None gives None and a number gives its float value; an empty list or dictionary, whose `str()` has no digit, gives None |
| FinanceParse.RejectedAreNotNumerals | backend/app/services/finance_recommendation.py:51-57 | on text the reader is `float()` of the cleaned text: the five rejected strings are exactly ones `float()` refuses anyway |
| FinanceParse.IntTextOfShow | backend/app/services/finance_recommendation.py:41 | `int()` reads back every integer written by `str()` |
| FinanceParse.IntTextIsFloatText | backend/app/services/finance_recommendation.py:30-41 | text `int()` accepts is read by `float()` to the same value |
| FinanceParse.ParseIntThenFloat | backend/app/services/finance_recommendation.py:24-43 | whenever the integer reader yields n, the float reader yields n as well |
| FinanceParse.ReadersReadShownIntegers | backend/app/services/finance_recommendation.py:24-57 | an integer written out as text is read back by all three readers |
| FinanceParse.CurrencyIgnoresDecoration | backend/app/services/finance_recommendation.py:51-55 | currency text whose digits, points and minus signs spell a whole number reads as that number: separators, units and spaces are ignored |
| FinanceParse.CurrencyText | backend/app/services/finance_recommendation.py:51-57 | text whose cleaned form is one of the five turned-away strings reads as None |
| FinanceParse.PyRepr | backend/app/services/finance_recommendation.py:51 | `str()` of an empty list is `[]` and of an empty dictionary `{}` |
| FinanceParse.CurrencyOfList | backend/app/services/finance_recommendation.py:46-57 | a list is read through its `str()`: `[a, b]` of two one-digit integers reads as the number 10a + b, so `[1, 2]` reads as 12 |
| FinanceParse.CurrencyOfDict | backend/app/services/finance_recommendation.py:46-57 | a dictionary is read through its `str()`: `{'a': d}` of a one-digit integer reads as d, the quotes and colon being dropped |
| FinanceParse.KeepNumericAppend | backend/app/services/finance_recommendation.py:51 | cleaning a concatenation is cleaning each part in turn |
| FinanceRecommendation.ComputeInterest | backend/app/services/finance_recommendation.py:17-21 | 0 when the principal, the rate or the term is not positive; otherwise within half a cent of principal × rate/100 × months/12; never negative |
| FinanceRecommendation.SimpleInterestPositive | backend/app/services/finance_recommendation.py:20-21 | the unrounded interest is positive for a positive principal, rate and term |
| FinanceRecommendation.InterestMonotoneInRate | backend/app/services/finance_recommendation.py:17-21 | a better rate never earns less interest |
| FinanceRecommendation.InterestAgreesWithClient | backend/app/services/finance_recommendation.py:17-21 | the server's interest at a percent rate is the client's interest at the same rate as a fraction, to within half a cent |
| FinanceRecommendation.Codes | backend/app/services/finance_recommendation.py:63-66 | every key the grouping inserts is a truthy product code |
| PyValues.KeyOf | backend/app/services/finance_recommendation.py:66 | a number (a boolean included) is compared as a dictionary key by its value, anything else as it is |
| PyValues.SameKey | backend/app/services/finance_recommendation.py:66 | values that are one dictionary key are alike in truth value and in having a hash |
| FinanceRecommendation.Group | backend/app/services/finance_recommendation.py:66 | a group holds only options whose code is the same dictionary key as its own (`True`, `1` and `1.0` are one key) |
| FinanceRecommendation.Index | backend/app/services/finance_recommendation.py:60-67 | one entry per distinct dictionary key among the truthy codes, in order of first occurrence and under the first code inserted, each holding the options whose code is that key |
| FinanceRecommendation.KeyPosition | backend/app/services/finance_recommendation.py:66 | the position found holds the same dictionary key as the code and no earlier entry does, or it is past the end when no entry does |
| FinanceRecommendation.IndexOptions | backend/app/services/finance_recommendation.py:60-67 | the loop raises exactly when some option has a truthy code without a hash (a list or dictionary), with the `TypeError` message of the first such code; otherwise it builds exactly the index |
| FinanceRecommendation.SetDefaultAppend | backend/app/services/finance_recommendation.py:64-66 | one turn of the grouping loop for a code with a hash or a falsy one turns the index of the options so far into that of one more option |
| FinanceRecommendation.UnhashableCode | backend/app/services/finance_recommendation.py:62-66 | no message exactly when no option has a truthy code without a hash; otherwise the `TypeError` message of such a code |
| FinanceRecommendation.FirstUnhashable | backend/app/services/finance_recommendation.py:62-66 | the grouping raises with the message of the first option whose truthy code has no hash |
| FinanceRecommendation.IndexStep | backend/app/services/finance_recommendation.py:62-66 | one more option leaves the index alone without a code, appends it to the group of an existing equal key (keeping that key as first inserted), and adds a new group at the end for a new key |
| FinanceRecommendation.CodesDistinct | backend/app/services/finance_recommendation.py:66 | no two keys of the index are the same dictionary key |
| FinanceRecommendation.CodesAreTheTruthyCodes | backend/app/services/finance_recommendation.py:63-66 | a value is the same key as one of the index exactly when it is truthy and some option carries a code that is the same key |
| FinanceRecommendation.KeysAreCarried | backend/app/services/finance_recommendation.py:63-66 | every key of the index is truthy and is the same key as the code of some option |
| FinanceRecommendation.CarriedAreKeys | backend/app/services/finance_recommendation.py:63-66 | every truthy code an option carries is the same key as one of the index |
| FinanceRecommendation.GroupHasEveryMatch | backend/app/services/finance_recommendation.py:66 | every option whose code is the same key as a value is in that value's group |
| FinanceRecommendation.IndexProperties | backend/app/services/finance_recommendation.py:60-67 | keys compared as a dictionary compares them: no key twice, exactly the truthy codes, and each group holds exactly the options whose code is its key |
| FinanceRecommendation.LookupIndex | backend/app/services/finance_recommendation.py:245 | looking a truthy code up gives the group of its key; a falsy one gives nothing (a code without a hash raises before the lookup: `LookupRaises`) |
| FinanceRecommendation.EqualKeysShareAGroup | backend/app/services/finance_recommendation.py:245 | codes that are one dictionary key, such as `True`, `1` and `1.0`, look up the same options |
| FinanceRecommendation.GroupsOfEqualKeys | backend/app/services/finance_recommendation.py:66 | codes that are one dictionary key have the same group |
| FinanceRecommendation.PenaltyAmount | backend/app/services/finance_recommendation.py:80 | no penalty without a rate; otherwise within half a cent of principal × rate |
| FinanceRecommendation.AnalysisProfile | backend/app/services/finance_recommendation.py:70-119 | the loop over the loans computes exactly the profile the figures define |
| FinanceRecommendation.ProfileBounds | backend/app/services/finance_recommendation.py:83-103 | household size at least 1 (the given one when it is), non-negative total and liquid assets, liquidity 1 and debt 0 without assets, and income per capita times household size equal to the income |
| FinanceRecommendation.LiquidityIsAShare | backend/app/services/finance_recommendation.py:88-90 | with non-negative figures the liquidity ratio lies in [0, 1] |
| FinanceRecommendation.LoanTotalOfAmounts | backend/app/services/finance_recommendation.py:92-100 | a list of loan records with float amounts totals the sum of the amounts |
| FinanceRecommendation.RateScore | backend/app/services/finance_recommendation.py:131 | between 0 and 55; 0 for no rate gain, 55 from a 2.5-point gain |
| FinanceRecommendation.TermScore | backend/app/services/finance_recommendation.py:133-137 | between 0 and 25; full marks when the term is the effective target term |
| FinanceRecommendation.LiquidityScore | backend/app/services/finance_recommendation.py:139-143 | between 4 and 10; 10 whenever at least half the wealth is liquid |
| FinanceRecommendation.DebtPenalty | backend/app/services/finance_recommendation.py:145-149 | between 0 and 10; nothing for a term up to 12 months or a debt ratio up to 0.35 |
| FinanceRecommendation.GainAdjust | backend/app/services/finance_recommendation.py:151-153 | between -10 and 10; nothing without a positive principal |
| FinanceRecommendation.ComputeMatchScore | backend/app/services/finance_recommendation.py:122-156 | the score lies in [0, 100] |
| FinanceRecommendation.UpperClampNeverBites | backend/app/services/finance_recommendation.py:155-156 | the parts sum to between -16 and 100, so the score is the sum raised to at least 0 |
| FinanceRecommendation.ScoreMonotoneInRate | backend/app/services/finance_recommendation.py:131-156 | a larger rate gain never lowers the score |
| FinanceRecommendation.ScoreMonotoneInNetGain | backend/app/services/finance_recommendation.py:151-156 | a larger net gain never lowers the score |
| FinanceRecommendation.FullMarks | backend/app/services/finance_recommendation.py:122-156 | a 2.5-point rate gain at the target term for a liquid, lightly indebted user with a net gain of a tenth of the principal scores 100 |
| FinanceRecommendation.InterestReasons | backend/app/services/finance_recommendation.py:178-181 | at most one reason, neither about the rate nor the joining channel |
| FinanceRecommendation.PenaltyReasons | backend/app/services/finance_recommendation.py:183-189 | at most one reason, neither about the rate nor the joining channel |
| FinanceRecommendation.TermReasons | backend/app/services/finance_recommendation.py:191-198 | at most one reason, neither about the rate nor the joining channel |
| FinanceRecommendation.LiquidityReasons | backend/app/services/finance_recommendation.py:200-203 | at most one reason, neither about the rate nor the joining channel |
| FinanceRecommendation.JoinReasons | backend/app/services/finance_recommendation.py:205-208 | at most one reason, and it is about the joining channel |
| FinanceRecommendation.FurtherReasons | backend/app/services/finance_recommendation.py:178-208 | at most five reasons after the rate reason, none of them about the rate |
| FinanceRecommendation.BuildReasons | backend/app/services/finance_recommendation.py:159-210 | appending rule by rule and keeping the first five gives exactly the reasons the rules define |
| FinanceRecommendation.ApplyRules | backend/app/services/finance_recommendation.py:169-208 | each rule that applies contributes exactly its one reason, in rule order: rate, interest, penalty, term, liquidity, joining channel |
| FinanceRecommendation.ReasonsShape | backend/app/services/finance_recommendation.py:169-210 | one to five reasons; the first is about the rate, up exactly above +0.05 points, down exactly below -0.05, the same otherwise; no later one is about the rate |
| FinanceRecommendation.CapDropsOnlyJoinWay | backend/app/services/finance_recommendation.py:210 | at most six rules fire; the cap drops a reason exactly when all six do, and then only the joining-channel reason |
| FinanceRecommendation.TargetTerm | backend/app/services/finance_recommendation.py:229 | the target term is always positive |
| FinanceRecommendation.CandidateFrom | backend/app/services/finance_recommendation.py:256-303 | a candidate has the option's term, a score in [0, 100], the product's company, name, code, description, joining channel and members, the product's limit and the user's penalty |
| FinanceRecommendation.JoinWayOf | backend/app/services/finance_recommendation.py:205-208 | the reasons see a joining channel exactly when the product's `join_way` is text |
| FinanceRecommendation.CandidateOf | backend/app/services/finance_recommendation.py:247-254 | an option gives a candidate only with a positive term; that candidate has a score in [0, 100] and the product's code and limit |
| FinanceRecommendation.OptionCandidates | backend/app/services/finance_recommendation.py:246-304 | every candidate of a product has a positive term, a score in [0, 100] and the product's code and limit |
| FinanceRecommendation.ProductCandidates | backend/app/services/finance_recommendation.py:237-245 | a product yields candidates only with a truthy code and a limit the principal does not exceed, and never when its lookup raises |
| FinanceRecommendation.OptionsFromProduct | backend/app/services/finance_recommendation.py:246-304 | every candidate of a product's options carries that product's company, name, code, description, joining channel and members |
| FinanceRecommendation.AllCandidates | backend/app/services/finance_recommendation.py:235-304 | every candidate has a positive term, a score in [0, 100], a truthy code and a limit the principal does not exceed |
| FinanceRecommendation.MakeCandidate | backend/app/services/finance_recommendation.py:247-254 | the option is skipped or evaluated exactly as the candidate function says |
| FinanceRecommendation.ProductLoop | backend/app/services/finance_recommendation.py:236-304 | one turn of the product loop yields exactly that product's candidates and raises exactly what the product raises: the `TypeError` of a code without a hash, else the `.strip()` error of its first candidate |
| FinanceRecommendation.ProductErrorCases | backend/app/services/finance_recommendation.py:236-281 | a product raises the `TypeError` of its code when its lookup is reached with a code without a hash; otherwise it raises `.strip()`'s message exactly when it has a candidate and a truthy joining channel that is not text |
| FinanceRecommendation.FirstRaised | backend/app/services/finance_recommendation.py:236-304 | a run of steps raises nothing exactly when no step raises |
| FinanceRecommendation.FirstRaisedAt | backend/app/services/finance_recommendation.py:236-304 | a run of steps raises with the message of its first raising step |
| FinanceRecommendation.RunError | backend/app/services/finance_recommendation.py:236-304 | the product loop raises nothing exactly when no product raises |
| FinanceRecommendation.AllCandidatesStep | backend/app/services/finance_recommendation.py:236-304 | one more product adds exactly its own candidates at the end |
| FinanceRecommendation.OptionLoop | backend/app/services/finance_recommendation.py:246-304 | the option loop yields exactly the candidates of the product's options, in order |
| FinanceRecommendation.BuildFinanceSwitching | backend/app/services/finance_recommendation.py:213-350 | with either product list empty the run returns no report; otherwise it raises at the first option code without a hash, then at the first product whose lookup or first candidate's `.strip()` raises, in list order, and else returns exactly the switching report the functions define |
| FinanceRecommendation.FirstStripError | backend/app/services/finance_recommendation.py:205-206 | no message exactly when no candidate has a truthy joining channel that is not text; otherwise the message `.strip()` raises for one such candidate |
| FinanceRecommendation.FirstStripErrorAppend | backend/app/services/finance_recommendation.py:205-206 | the first raising candidate of two runs is that of the first run, or else that of the second |
| FinanceRecommendation.AllCandidatesAppend | backend/app/services/finance_recommendation.py:235-304 | the candidates of two runs of products are those of the first followed by those of the second |
| FinanceRecommendation.AllCandidatesAround | backend/app/services/finance_recommendation.py:235-304 | the candidates of a run are those of the products before one product, then that product's, then those of the products after it |
| FinanceRecommendation.ProductInAll | backend/app/services/finance_recommendation.py:235-304 | every candidate of a product in the list is a candidate of the run |
| FinanceRecommendation.RaisedAt | backend/app/services/finance_recommendation.py:236-304 | when no earlier product raised and product b does, the product loop raises with product b's message |
| FinanceRecommendation.SwitchingProperties | backend/app/services/finance_recommendation.py:306-331 | every candidate is counted; the best is a candidate no candidate outranks on (score, net gain, rate); switching is advised and reviewed exactly for a positive net gain; the confidence is its score over 100, in [0, 1]; the alternatives are exactly the 2nd to 4th entries of the ranking (min(3, n-1) of them), in order, none ranked above the best, and no candidate left out of the report ranks above any of them |
| FinanceRecommendation.RankedFacts | backend/app/services/finance_recommendation.py:306-313 | the ranking keeps exactly the candidates, orders them and puts first one no candidate outranks |
| FinanceRecommendation.ReportProperties | backend/app/services/finance_recommendation.py:315-331 | the best is the first ranked entry, the alternatives are exactly the entries at positions 1 to 3 (min(3, n-1) of them), in order, and no entry left out ranks above one of them; with no candidate the decision says too few products and the confidence is 0 |
| FinanceRecommendation.AlternativesFacts | backend/app/services/finance_recommendation.py:315-316 | `candidates[1:4]` on a ranked list: min(3, n-1) entries, the i-th being the (i+1)-th ranked, in order and none above the first |
| FinanceRecommendation.AlternativesOutrankRest | backend/app/services/finance_recommendation.py:306-316 | a candidate that is neither the best nor an alternative ranks no higher than any alternative |
| FinanceRouter.NoneToZero | backend/app/api/finance_router.py:34-38 | null and the empty text become 0; every other value passes unchanged |
| FinanceRouter.CoerceFloat | backend/app/api/finance_router.py:26 | a number (a boolean included) is taken as a float; null, a list or a dictionary is refused |
| FinanceRouter.CoerceInt | backend/app/api/finance_router.py:27 | an integer is kept; a float is taken exactly when it has no fractional part, and then as its own value; null, a list or a dictionary is refused |
| FinanceRouter.FloatField | backend/app/api/finance_router.py:26-30 | an absent field takes its default; an accepted present one is at least the lower bound |
| FinanceRouter.IntField | backend/app/api/finance_router.py:27 | an absent field takes its default; an accepted present one is at least the lower bound |
| FinanceRouter.TextField | backend/app/api/finance_router.py:18 | an absent field takes its default |
| FinanceRouter.OptionalAmount | backend/app/api/finance_router.py:11-12 | an absent amount is 0; an accepted one is null, 0 or a non-negative float |
| FinanceRouter.OptionalCount | backend/app/api/finance_router.py:13 | an absent count is 0 |
| FinanceRouter.ValidateSavings | backend/app/api/finance_router.py:17-22 | an accepted savings record has non-negative principal, rate, term and penalty |
| FinanceRouter.ValidateLoan | backend/app/api/finance_router.py:9-14 | an accepted loan is a record whose amount is null, 0 or a non-negative float |
| FinanceRouter.ValidateLoans | backend/app/api/finance_router.py:32 | accepted loans are null or a list of such records |
| FinanceRouter.ValidateLoanList | backend/app/api/finance_router.py:32 | an accepted list keeps its length and every entry is such a record |
| FinanceRouter.ValidatedIsAdmissible | backend/app/api/finance_router.py:25-32 | every accepted body has non-negative amounts, a household of at least 1, a savings record within its bounds and valid loans |
| FinanceRouter.EmptyBodyDefaults | backend/app/api/finance_router.py:25-32 | an empty body takes every default: zero amounts, a household of one, the default savings and no loans |
| FinanceRouter.BlankIsZero | backend/app/api/finance_router.py:34-38 | the four hooked fields read null and the empty text as 0 and refuse a negative amount |
| FinanceRouter.NullHouseholdRefused | backend/app/api/finance_router.py:27 | a null household size is refused, having no hook |
| FinanceRouter.LoanTotalNonNegative | backend/app/api/finance_router.py:11 | validated loans total a non-negative debt |
| FinanceRouter.AdmissibleProfile | backend/app/api/finance_router.py:25-32 | on an accepted form the liquidity ratio is a share, loans, debt ratio and penalty are non-negative and the household is the one given |
| FinanceRouter.Recommend | backend/app/api/finance_router.py:100-107 | a refused body, and only a refused one, gives the validation refusal; a failing fetch gives status 500 with its message; any exception of the recommender (an unhashable product code, a failing `.strip()`) gives status 500 with its message; an answered report always meets the response schema |
| FinanceRouter.SwitchingMeetsSchema | backend/app/api/finance_router.py:53-90 | with products whose name is text and whose other passed-on fields are text or null, and options whose code is text or null, the recommender raises nothing and its report meets the response schema: text product names, text-or-null fields, scores in [0, 100], confidence in [0, 1] |
| FinanceRouter.ServerErrorOnlyFromFetch | backend/app/api/finance_router.py:100-107 | with fetched products and options of the documented types an accepted body always gets the recommender's report |
| FinanceRouter.TypedCandidates | backend/app/api/finance_router.py:53-71 | every candidate built from products of the documented types is a recommendation the response schema accepts |
| FinanceRouter.JoinWayRaisesServerError | backend/app/api/finance_router.py:100-107 | a product with a candidate and a truthy joining channel that is not text makes an accepted request fail with status 500, wherever the product stands in the list |
| FinanceRouter.TypedProductsRunThrough | backend/app/services/finance_recommendation.py:236-304 | products of the documented types raise nothing in the product loop |
| FinanceRouter.UnhashableOptionCodeServerError | backend/app/api/finance_router.py:100-107 | an option whose code is a non-empty list or dictionary makes an accepted request fail with status 500 and the `TypeError` message of the first such code, before any product is looked at |
| FinanceRouter.ListOptionCode | backend/app/api/finance_router.py:100-107 | an option code `["A"]` gives status 500 with "unhashable type: 'list'", whatever the products |
| FinanceRouter.UnhashableProductCodeServerError | backend/app/api/finance_router.py:100-107 | a product reached with a non-empty list or dictionary as its code, after products that raised nothing, makes an accepted request fail with status 500 and that code's `TypeError` message |
| WelfareProvider.TableGet | backend/app/services/welfare_provider.py:96 | the value of the first entry with the key, or the default when no entry has it |
| WelfareProvider.RegionNamesDistinct | backend/app/services/welfare_provider.py:87-91 | the region table has no code twice |
| WelfareProvider.RegionNameLookup | backend/app/services/welfare_provider.py:96 | a listed code gives its region name; an unlisted code is searched as it is |
| WelfareProvider.CollectKeywords | backend/app/services/welfare_provider.py:92-103 | the keywords appended step by step are exactly the job, the region name, the age and the preferences that are given, in that order |
| WelfareProvider.SearchKeyword | backend/app/services/welfare_provider.py:104-105 | there is a search text exactly when there is a keyword |
| WelfareProvider.KeywordProperties | backend/app/services/welfare_provider.py:92-105 | no search text exactly when no filter is given; a given job comes first and the preferences last; every keyword occurs in the search text |
| WelfareProvider.SeparatorIndex | backend/app/services/welfare_provider.py:135 | the position of the first `,` or `/`, or the end when there is none |
| WelfareProvider.Pieces | backend/app/services/welfare_provider.py:135 | at least one piece, none of them holding a separator |
| WelfareProvider.Cleaned | backend/app/services/welfare_provider.py:135 | every category kept is non-blank with no white space at either end, and holds no separator when the pieces held none |
| WelfareProvider.SplitCategories | backend/app/services/welfare_provider.py:135 | every category is non-empty and holds no separator |
| WelfareProvider.SplitJoinRoundTrip | backend/app/services/welfare_provider.py:135 | splitting category names joined with commas gives them back |
| WelfareProvider.PiecesOfJoin | backend/app/services/welfare_provider.py:135 | cutting a comma-joined list of separator-free texts gives the texts back |
| WelfareProvider.CleanedKeeps | backend/app/services/welfare_provider.py:135 | well-formed category names survive the stripping and the blank filter unchanged |
| WelfareProvider.CategoriesOf | backend/app/services/welfare_provider.py:133-139 | a list is kept as it is; text gives categories taken from its split; anything else gives none |
| WelfareProvider.MapItem | backend/app/services/welfare_provider.py:126-149 | the name is never empty, is `servNm` when that is truthy and "무제" when no name key is; the programme is nationwide, open to every job and to ages 0 to 120 |
| WelfareProvider.MappedItemsScoreAsNationwide | backend/app/services/welfare_provider.py:144-145 | a mapped programme earns the region, age and job points for every user aged 0 to 120, so its score is the category points plus 40 plus the income point |
| WelfareProvider.MapAll | backend/app/services/welfare_provider.py:161 | a list of records maps record by record, in order; every mapped programme is nationwide and named |
| WelfareProvider.Wrap | backend/app/services/welfare_provider.py:159-160 | a single record becomes a list of one; anything else is kept |
| WelfareProvider.PortalListIsMapped | backend/app/services/welfare_provider.py:156-161 | a portal response with a list of records under `items` yields one programme per record, in order |
| WelfareProvider.Programs | backend/app/services/welfare_provider.py:182-186 | as written: the fallback to the sample programmes happens exactly when the parse raises or finds nothing; otherwise the programmes are non-empty, nationwide and named |
| WelfareProvider.ProgramsCorrected | backend/app/services/welfare_provider.py:182-186 | the same over the extraction that reads the portal's `items.item` container: fallback exactly when it raises or finds nothing, otherwise non-empty, nationwide and named programmes |
| WelfareProvider.ItemsContainerAsWritten | backend/app/services/welfare_provider.py:156-161 | a portal response with its records inside `items.item` yields a single programme named "무제", built from the container |
| WelfareProvider.Unwrap | backend/app/services/welfare_provider.py:158 | a container with a truthy `item` gives that value; anything that is not a record is kept |
| WelfareProvider.ExtractItemsCorrected | backend/app/services/welfare_provider.py:151-176 | every programme extracted is nationwide and named |
| WelfareProvider.ItemsContainerCorrected | backend/app/services/welfare_provider.py:156-161 | with the container unwrapped, records inside `items.item` yield one programme each, in order |
| WelfareProvider.CorrectionAgreesOnLists | backend/app/services/welfare_provider.py:156-161 | on a response listing its records directly under `items`, the corrected and the written extraction agree |
| ChatService.SpeakerOf | backend/app/services/chat_service.py:155-160 | a role lower-casing to "user" is the user, one lower-casing to "assistant" is the model, any other role has no speaker |
| ChatService.Converted | backend/app/services/chat_service.py:152-164 | never more turns than messages |
| ChatService.ConvertMessages | backend/app/services/chat_service.py:152-164 | the loop converts exactly the messages with a known role, in order |
| ChatService.ConvertedOneForOne | backend/app/services/chat_service.py:152-164 | messages with known roles convert one for one, each keeping its text and speaker |
| ChatService.UnknownRoleDropped | backend/app/services/chat_service.py:156-157 | a message with an unknown role adds nothing |
| ChatService.ConvertedEmpty | backend/app/services/chat_service.py:152-164 | nothing is converted exactly when no message has a known role |
| ChatService.Rendered | backend/app/services/chat_service.py:145-149 | a rendered block opens with the header |
| ChatService.RenderSavings | backend/app/services/chat_service.py:112-125 | the savings lines appended are exactly those the product's known fields define |
| ChatService.RenderAssets | backend/app/services/chat_service.py:99-125 | the asset lines appended are exactly those the known asset fields define |
| ChatService.RenderRecognition | backend/app/services/chat_service.py:127-133 | the recognised-income lines appended are exactly those its known figures define |
| ChatService.RenderEligibility | backend/app/services/chat_service.py:135-143 | the eligibility lines appended are exactly those its known answers define |
| ChatService.RenderContext | backend/app/services/chat_service.py:91-149 | the method renders exactly the block the functions define |
| ChatService.RenderedShape | backend/app/services/chat_service.py:91-149 | no block exactly when there is no context or none of its four parts is present; the header occurs only at the top |
| ChatService.EligibilityWording | backend/app/services/chat_service.py:138-143 | "가능성 있음" exactly for an eligible answer, "기준 초과" or "가이드 필요" exactly for an ineligible one, and no line for an unknown one |
| ChatService.AssetLinesReflectFields | backend/app/services/chat_service.py:102-115 | an income or deposits line with a value exactly when that field holds it; a product without a name is titled "미입력"; no product title without a product |
| ChatService.ChatRequest | backend/app/services/chat_service.py:167-178 | a refusal has status 400; a request sent is never empty |
| ChatService.ChatRequestProperties | backend/app/services/chat_service.py:171-178 | status 400 exactly when no message has a known role and the context renders to nothing; a rendered context is the first turn, from the user, and the converted history follows unchanged |
| ChatSession.Payload | welfare-dashboard-demo/src/components/ChatBot.tsx:347-350 | one payload entry per message, in order, carrying its role and text |
| ChatSession.Resolve | welfare-dashboard-demo/src/components/ChatBot.tsx:358-377 | the message with the pending id is resolved with the reply or the apology; every other message is left as it was |
| ChatSession.Session.constructor | welfare-dashboard-demo/src/components/ChatBot.tsx:169-174 | a new conversation holds only the greeting, an empty input, no request in flight and no error |
| ChatSession.Session.HandleSend | welfare-dashboard-demo/src/components/ChatBot.tsx:316-381 | nothing happens while a reply is awaited or for blank text; otherwise the trimmed text's intent updates the form and step, the user's line, the local summary (when the text changed something) and a pending reply are appended, the input is cleared, the error reset, and the request carries the conversation without the pending line and the form and step shown before |
| ChatSession.Session.Send | welfare-dashboard-demo/src/components/ChatBot.tsx:321-356 | the same new state and request as above, for a text already trimmed and non-blank |
| ChatSession.Session.Post | welfare-dashboard-demo/src/components/ChatBot.tsx:321-356 | appending the lines of a sent text keeps ids increasing and the pending reply the only pending line |
| ChatSession.Session.Complete | welfare-dashboard-demo/src/components/ChatBot.tsx:358-380 | only the pending line changes, to the reply or to the apology with the error mark; a failure's message (or the stock one) becomes the last error; input is accepted again; form, step and input are unchanged |
| ChatSession.Session.SelectStep | welfare-dashboard-demo/src/components/ChatBot.tsx:384-386 | the step quick actions set the step and change nothing else |
| ChatSession.SentAsIs | welfare-dashboard-demo/src/components/ChatBot.tsx:318-319 | a non-blank text with no white space at either end is sent as it is |
| ChatSession.IncomeQuickTrimmed | welfare-dashboard-demo/src/components/ChatBot.tsx:387 | the income quick-action text passes the blank check unchanged |
| ChatSession.HouseholdQuickTrimmed | welfare-dashboard-demo/src/components/ChatBot.tsx:388 | the household quick-action text passes the blank check unchanged |
| ChatSession.SendKeepsOrder | welfare-dashboard-demo/src/components/ChatBot.tsx:321-342 | the appended lines keep ids increasing and below the next id, and leave the new pending reply the only pending line |
| ChatSession.ResolveLast | welfare-dashboard-demo/src/components/ChatBot.tsx:358-362 | resolving the last line by its id changes that line alone |
| ChatScanner.RunEnd | welfare-dashboard-demo/src/components/ChatBot.tsx:51 | the run of digits and commas ends at the first character that is neither, or at the end of the text |
| ChatScanner.Scale | welfare-dashboard-demo/src/components/ChatBot.tsx:56-59 | the multiplier is 1, 1,000, 10,000 or 100,000,000 |
| ChatScanner.CandidateAt | welfare-dashboard-demo/src/components/ChatBot.tsx:51-67 | a match starts at its digit and ends after it, within the text |
| ChatScanner.ExtractNumericCandidates | welfare-dashboard-demo/src/components/ChatBot.tsx:49-70 | the loop of repeated searches yields exactly the scan's matches |
| ChatScanner.CandidateAtIsCandidate | welfare-dashboard-demo/src/components/ChatBot.tsx:51-67 | the match found at a digit is a match of the pattern: maximal run, unit character exactly when the next one is neither digit nor white space, value = digits × scale, end = start + length |
| ChatScanner.ScanFromMatches | welfare-dashboard-demo/src/components/ChatBot.tsx:53-68 | every match the scan yields is a match of the pattern, at or after the starting point |
| ChatScanner.ScanFromBounds | welfare-dashboard-demo/src/components/ChatBot.tsx:64-65 | every match lies within the text, after the starting point, and is not empty |
| ChatScanner.ScanFromInOrder | welfare-dashboard-demo/src/components/ChatBot.tsx:53-68 | the matches come left to right and do not overlap |
| ChatScanner.ScanFromCovers | welfare-dashboard-demo/src/components/ChatBot.tsx:53-68 | every digit after the starting point lies inside some match |
| ChatScanner.ScanFromUnique | welfare-dashboard-demo/src/components/ChatBot.tsx:49-70 | any ordered, non-overlapping list of pattern matches covering every digit is the scan's result |
| ChatScanner.ScanFromMeetsSpec | welfare-dashboard-demo/src/components/ChatBot.tsx:49-70 | the scan's result is such a list; with uniqueness this characterises it |
| ChatScanner.CandidateEqual | welfare-dashboard-demo/src/components/ChatBot.tsx:51 | a match is determined by where it starts |
| ChatScanner.SomeHintIff | welfare-dashboard-demo/src/components/ChatBot.tsx:79 | a hint is found exactly when some hint starts the text after the number or ends the text before it |
| ChatScanner.NormalizeCurrency | welfare-dashboard-demo/src/components/ChatBot.tsx:92-99 | a value under 10,000 without a currency unit and written with 1 to 999 is multiplied by 10,000; every other value is unchanged |
| ChatScanner.MatchAll | welfare-dashboard-demo/src/components/ChatBot.tsx:109 | every keyword match lies within the text, from the starting point on |
| ChatScanner.MinDistance | welfare-dashboard-demo/src/components/ChatBot.tsx:120-129 | the distance is the smallest gap to a keyword match, 0 for an overlap |
| ChatScanner.Filter | welfare-dashboard-demo/src/components/ChatBot.tsx:137-142 | filtering never lengthens the list |
| ChatScanner.FilterMembers | welfare-dashboard-demo/src/components/ChatBot.tsx:137-142 | filtering keeps exactly the entries that pass the test |
| ChatScanner.FilterKeepsOrder | welfare-dashboard-demo/src/components/ChatBot.tsx:137-142 | filtering keeps an increasing order |
| ChatScanner.Weigh | welfare-dashboard-demo/src/components/ChatBot.tsx:110-136 | one weighted entry per kept candidate, in order |
| ChatScanner.CandidatesStrictlyOrdered | welfare-dashboard-demo/src/components/ChatBot.tsx:53-68 | candidates start at strictly increasing positions |
| ChatScanner.PickChoice | welfare-dashboard-demo/src/components/ChatBot.tsx:106-147 | nothing is picked exactly when no candidate is kept; otherwise the pick is the reading of a kept candidate at least as near to the keyword as every kept one and strictly nearer than every earlier one |
| ChatScanner.FindRelevantNumberChoice | welfare-dashboard-demo/src/components/ChatBot.tsx:101-148 | no number exactly when no candidate is eligible (ages and head counts skipped, or only head counts kept); otherwise the normalised value, or the bare digits for a head count, of the nearest eligible candidate, the earliest on a tie |
| ChatScanner.ScanSkip | welfare-dashboard-demo/src/components/ChatBot.tsx:51 | characters that are not digits do not start a match |
| ChatScanner.NotAgeContext | welfare-dashboard-demo/src/components/ChatBot.tsx:76-84 | a number with no age word within three characters on either side and no age phrase within five is not an age |
| ChatScanner.NotPersonContext | welfare-dashboard-demo/src/components/ChatBot.tsx:86-90 | a number with no 명 or 인 within two characters on either side is not a head count |
| ChatScanner.PlainContext | welfare-dashboard-demo/src/components/ChatBot.tsx:112-117 | in a text without any character of the age and head-count words, every number is an eligible figure |
| ChatScanner.PickOnly | welfare-dashboard-demo/src/components/ChatBot.tsx:106-147 | with a single candidate, its reading is picked when it is kept, nothing otherwise |
| ChatScanner.FindOnly | welfare-dashboard-demo/src/components/ChatBot.tsx:101-148 | with a single candidate, its normalised value is returned when it is eligible, nothing otherwise |
| ChatBot.Merge | welfare-dashboard-demo/src/components/ChatBot.tsx:244-252 | every form and savings field takes the update when there is one and keeps its old value otherwise; the product name and the loans are untouched |
| ChatBot.MergeIdempotent | welfare-dashboard-demo/src/components/ChatBot.tsx:244-252 | merging the same updates a second time changes nothing more |
| ChatBot.StepFor | welfare-dashboard-demo/src/components/ChatBot.tsx:188-190 | a DSA word moves to step 2, else a welfare word to step 1, else an asset word to step 0, else no step change |
| ChatBot.ReadStep | welfare-dashboard-demo/src/components/ChatBot.tsx:183-190 | the three step rules, applied in order with later ones overriding, yield the step StepFor describes |
| ChatBot.ReadUpdates | welfare-dashboard-demo/src/components/ChatBot.tsx:184-211 | the five form-field rules yield exactly the updates read from the message text |
| ChatBot.ReadSavingsUpdates | welfare-dashboard-demo/src/components/ChatBot.tsx:185-239 | the four savings rules yield exactly the savings updates read from the text, and the flag is set exactly when one of them fired |
| ChatBot.FormSummary | welfare-dashboard-demo/src/components/ChatBot.tsx:255-269 | one sentence per form field that was set, in field order |
| ChatBot.BuildSummary | welfare-dashboard-demo/src/components/ChatBot.tsx:241-284 | the sentences for the merged fields, the savings line when savings changed, then the step message |
| ChatBot.ProcessLocalIntent | welfare-dashboard-demo/src/components/ChatBot.tsx:181-288 | the new form, the step and the reply are the ones the message determines; no reply when nothing was recognised |
| ChatBot.StepForIff | welfare-dashboard-demo/src/components/ChatBot.tsx:188-190 | each step is chosen exactly when its words appear and no overriding words do; no step exactly when none appear |
| ChatBot.SummaryEmptyIff | welfare-dashboard-demo/src/components/ChatBot.tsx:244-286 | the summary is empty exactly when no field was set, no savings field was set and no step was found |
| ChatBot.IntentTouchesOnlyUpdated | welfare-dashboard-demo/src/components/ChatBot.tsx:244-288 | only the fields the message set change; without a reply the form is unchanged |
| ChatBot.IntentIdempotent | welfare-dashboard-demo/src/components/ChatBot.tsx:181-288 | handling the same message twice leaves the form as handling it once |
| ChatBot.HouseholdAtLeastOne | welfare-dashboard-demo/src/components/ChatBot.tsx:196-199 | a household size read from a message is a whole number of at least one |
| ChatBot.RateFromPercent | welfare-dashboard-demo/src/components/ChatBot.tsx:215 | a figure of one or more is read as a percentage and divided by 100; a rate below one is kept; the rate is below 100 % exactly when the figure is below 100 |
| ChatBot.MonthsAsRead | welfare-dashboard-demo/src/components/ChatBot.tsx:219-224 | the remaining months are the figure found near a months word, or nothing when no months word appears |
| ChatBot.IncomeQuickAction | welfare-dashboard-demo/src/components/ChatBot.tsx:387 | the quick action for a 3 000 000 won income sets exactly that income, no step, and reports just that field |
| ChatBot.HouseholdQuickActionAsWritten | welfare-dashboard-demo/src/components/ChatBot.tsx:388 | as written, the household quick action changes no field and no step and gives no local summary; the reply shown is the backend's alone |
| ChatBot.MonthsSampleAsWritten | welfare-dashboard-demo/src/components/ChatBot.tsx:219-224 | as written, "8개월" is read as 80 000 months, because the currency scaling is applied to a count |
| ChatBot.RateSampleAsWritten | welfare-dashboard-demo/src/components/ChatBot.tsx:212-217 | as written, "금리 3%" is read as a rate of 300, i.e. 30 000 % |
| ChatBot.NearestUnique | welfare-dashboard-demo/src/components/ChatBot.tsx:110-147 | at most one candidate is the nearest eligible one to a keyword, so the pick is well defined |
| ChatBot.CountVersusAmount | welfare-dashboard-demo/src/components/ChatBot.tsx:92-99 | the corrected count reader finds a figure exactly when the amount reader does, and reads the same candidate without currency scaling |
| ChatBot.MonthsSampleCorrected | welfare-dashboard-demo/src/components/ChatBot.tsx:219-224 | corrected, "8개월" is read as 8 months |
| ChatBot.RateSampleCorrected | welfare-dashboard-demo/src/components/ChatBot.tsx:212-217 | corrected, "금리 3%" is read as a rate of 0.03 |
| ChatBot.HeadCountWidens | welfare-dashboard-demo/src/components/ChatBot.tsx:86-90 | the corrected head-count test accepts exactly what the original accepts plus figures followed by 명 or 인 |
| ChatBot.HouseholdAsCounted | welfare-dashboard-demo/src/components/ChatBot.tsx:196-199 | corrected, a head count n found near a household word sets the household to max(1, n) |
| ChatBot.HouseholdQuickCorrected | welfare-dashboard-demo/src/components/ChatBot.tsx:388 | corrected, the household quick action sets the household size to 3 |
| WelfareApi.Find | welfare-dashboard-demo/src/api/welfare.ts:47 | nothing exactly when no entry has the key; otherwise the value of the first entry with that key |
| WelfareApi.FoundEntry | welfare-dashboard-demo/src/api/welfare.ts:47 | what the lookup finds is stored in the table under the key |
| WelfareApi.RegionCode | welfare-dashboard-demo/src/api/welfare.ts:47 | an absent or empty region gives no code; a code given is the table's code for that very region name |
| WelfareApi.RegionCodeLookup | welfare-dashboard-demo/src/api/welfare.ts:20-47 | an absent, empty or unknown region gives no code; each of the seventeen region names gives its own administrative code |
| WelfareApi.RegionRoundTrip | welfare-dashboard-demo/src/api/welfare.ts:20-38 | the provider's code-to-name table maps each region's code back to the very name the client looked up |
| WelfareApi.PayloadKeywords | welfare-dashboard-demo/src/api/welfare.ts:40-68 | for a known region the backend's search keywords include the region name the user picked |
| WelfareApi.CodesGiven | welfare-dashboard-demo/src/api/welfare.ts:20-38 | every region code is non-empty, so a known region is always sent as a filter |
| WelfareApi.JobCategory | welfare-dashboard-demo/src/api/welfare.ts:50-54 | no job category exactly when the job is absent or empty; a worker is sent as an employee; any other job is sent as given |
| WelfareApi.AgeOf | welfare-dashboard-demo/src/api/welfare.ts:56-60 | the three age groups map to 29, 45 and 68; any other value gives no age |
| WelfareApi.PreferencesOf | welfare-dashboard-demo/src/api/welfare.ts:62-66 | the three preferences map to their category lists, drawn from housing, medical, livelihood, low-income and education; any other value gives no categories |
| WelfareApi.PayloadOf | welfare-dashboard-demo/src/api/welfare.ts:40-68 | a region code is sent only for a picked region and is that region's table code; no job category exactly when the job is absent or empty; an age is one of 29, 45 and 68; no preferences exactly when the preference is none of the three known ones |
| WelfareApi.Body | welfare-dashboard-demo/src/api/welfare.ts:68 | the request body has exactly four entries |
| WelfareApi.BodyCarriesPayload | welfare-dashboard-demo/src/api/welfare.ts:68 | each filter is null exactly when it was not mapped and carries its value otherwise; no household size or recognised income is ever sent |
| WelfareApi.Put | welfare-dashboard-demo/src/api/welfare.ts:125 | adding a header sets it, leaves every other header as it was, keeps names distinct, and grows the headers only when the name is new |
| WelfareApi.WithAuth | welfare-dashboard-demo/src/api/welfare.ts:122-128 | without a stored token the headers are unchanged; with one, Authorization is "Bearer " plus the token and every other header is kept |
| WelfareApi.WithAuthReplaces | welfare-dashboard-demo/src/api/welfare.ts:122-128 | adding a newer token over an older one is the same as adding only the newer one |
| WelfareApi.PutTwice | welfare-dashboard-demo/src/api/welfare.ts:125 | setting the same header twice is the same as setting it once to the second value |
| KoreaMap.KeepLetters | welfare-dashboard-demo/src/components/KoreaMap.tsx:14 | the result keeps only lower-case Latin letters and is no longer than the input |
| KoreaMap.FirstMatch | welfare-dashboard-demo/src/components/KoreaMap.tsx:34-36 | the position of the first fragment contained in the text: no earlier fragment is contained, and the one found is; the table length when none is |
| KoreaMap.ToKorean | welfare-dashboard-demo/src/components/KoreaMap.tsx:13-38 | the result is one of the seventeen region names or the input unchanged |
| KoreaMap.Translate | welfare-dashboard-demo/src/components/KoreaMap.tsx:34-37 | the loop over the fragments returns the region of the first fragment found, or the input when none is, as ToKorean describes |
| KoreaMap.FindFragment | welfare-dashboard-demo/src/components/KoreaMap.tsx:34-36 | the loop stops at the first fragment contained in the text, which is the position FirstMatch names, or runs past the end when none is |
| KoreaMap.PatternRegions | welfare-dashboard-demo/src/components/KoreaMap.tsx:15-33 | every fragment of the table is non-empty and stands for one of the seventeen region names |
| KoreaMap.PatternsNonEmpty | welfare-dashboard-demo/src/components/KoreaMap.tsx:15-33 | no fragment is empty, so the empty text contains none |
| KoreaMap.NoLatinNormalizesEmpty | welfare-dashboard-demo/src/components/KoreaMap.tsx:14 | a text without Latin letters normalises to the empty text |
| KoreaMap.NothingInEmpty | welfare-dashboard-demo/src/components/KoreaMap.tsx:34-37 | no fragment is found in an empty normalised text |
| KoreaMap.RegionsAreHangul | welfare-dashboard-demo/src/components/KoreaMap.tsx:15-33 | every region name is written in Hangul syllables only |
| KoreaMap.ToKoreanIdempotent | welfare-dashboard-demo/src/components/KoreaMap.tsx:13-38 | translating a translated name again changes nothing |
| KoreaMap.OnlyLettersMatter | welfare-dashboard-demo/src/components/KoreaMap.tsx:14 | two inputs with the same Latin letters, ignoring case, reach the same region, or are each left as they were |
| KoreaMap.SeoulSample | welfare-dashboard-demo/src/components/KoreaMap.tsx:14-16 | "SEOUL" in capitals reaches 서울 |
| MyDataAssets.SafeValue | welfare-dashboard-demo/src/pages/MyDataAssetsPage.tsx:38 | a missing or negative figure counts as 0; a non-negative one as itself |
| MyDataAssets.Slices | welfare-dashboard-demo/src/pages/MyDataAssetsPage.tsx:37-44 | three slices, real estate, deposits and other assets in that order, each holding its clamped figure, none negative |
| MyDataAssets.TotalAssetIsSum | welfare-dashboard-demo/src/pages/MyDataAssetsPage.tsx:46 | the total asset is the sum of the three clamped figures and is never negative |
| MyDataAssets.TotalAssetOfForm | welfare-dashboard-demo/src/pages/MyDataAssetsPage.tsx:46 | on a form with no negative figure the page's total equals the application's total assets |
| MyDataAssets.HouseholdSize | welfare-dashboard-demo/src/pages/MyDataAssetsPage.tsx:47 | the household is at least 1, and a household of at least 1 is taken as given |
| MyDataAssets.PerCapitaIsAShare | welfare-dashboard-demo/src/pages/MyDataAssetsPage.tsx:48 | the assets per head lie between 0 and the total, and times the household give the total back |
| MyDataAssets.LiquidityRatioAsWritten | welfare-dashboard-demo/src/pages/MyDataAssetsPage.tsx:50-53 | as written, 100 000 000 of real estate with -10 000 000 of deposits gives a liquidity ratio of -0.1 |
| MyDataAssets.LiquidityRatioCorrected | welfare-dashboard-demo/src/pages/MyDataAssetsPage.tsx:50-53 | the corrected ratio lies between 0 and 1, is 0 for an empty portfolio, and otherwise times the total gives the clamped deposits plus other assets |
| MyDataAssets.LiquidityCorrectionAgrees | welfare-dashboard-demo/src/pages/MyDataAssetsPage.tsx:50-53 | with no negative deposits or other assets the written and the corrected ratios agree |
| MyDataAssets.LiquidityPercent | welfare-dashboard-demo/src/pages/MyDataAssetsPage.tsx:90 | the liquidity shown, the as-written ratio in whole percent, never exceeds 100 %, and is not below 0 on a record without a negative cash figure |
| MyDataAssets.LiquidityPercentAsWritten | welfare-dashboard-demo/src/pages/MyDataAssetsPage.tsx:90 | on the record of the as-written ratio finding the donut shows -10 % |
| MyDataAssets.IncomeCoverageMeaning | welfare-dashboard-demo/src/pages/MyDataAssetsPage.tsx:55-59 | with a positive income the coverage times a year's income is the total asset, and the badge says stable exactly when the assets reach 144 months of income; without income the coverage is 0 |
| MyDataAssets.RecognitionAgreesWithApp | welfare-dashboard-demo/src/pages/MyDataAssetsPage.tsx:61-69 | the page's recognised income equals the application's, on a complete form and on any form once missing figures are read as 0 and a missing household as 1 |
| MyDataAssets.RecognitionRatio | welfare-dashboard-demo/src/pages/MyDataAssetsPage.tsx:95 | the recognised-income bar is at most full and never overstates the income against 4 000 000 won |
| MyDataAssets.Positive | welfare-dashboard-demo/src/pages/MyDataAssetsPage.tsx:75 | only slices with a positive value are kept, and no more than there were |
| MyDataAssets.Arcs | welfare-dashboard-demo/src/pages/MyDataAssetsPage.tsx:74-81 | one arc per slice drawn |
| MyDataAssets.DonutStyle | welfare-dashboard-demo/src/pages/MyDataAssetsPage.tsx:71-83 | the cursor loop builds the donut DonutOf describes: a plain disc for an empty portfolio, otherwise the arcs of the positive slices |
| MyDataAssets.ArcsSpan | welfare-dashboard-demo/src/pages/MyDataAssetsPage.tsx:77-79 | the k-th arc runs from the share of the slices before it to the share of the slices up to and including it |
| MyDataAssets.PositiveKeepsTotal | welfare-dashboard-demo/src/pages/MyDataAssetsPage.tsx:75 | dropping the zero slices does not change the total |
| MyDataAssets.PositiveMembers | welfare-dashboard-demo/src/pages/MyDataAssetsPage.tsx:75 | every kept slice is one of the page's slices |
| MyDataAssets.TotalsIncrease | welfare-dashboard-demo/src/pages/MyDataAssetsPage.tsx:78-79 | a positive slice makes its arc end strictly after it starts |
| MyDataAssets.ArcBounds | welfare-dashboard-demo/src/pages/MyDataAssetsPage.tsx:76-80 | each arc has its slice's colour, starts at the share before it, ends at the share through it, and has positive length |
| MyDataAssets.ArcsCoverCircle | welfare-dashboard-demo/src/pages/MyDataAssetsPage.tsx:71-83 | the arcs start at the top, each starts where the previous ends, each is non-empty, and the last closes the circle |
| MyDataAssets.DonutCoversCircle | welfare-dashboard-demo/src/pages/MyDataAssetsPage.tsx:71-83 | the donut is a plain disc exactly when the portfolio is empty; otherwise it is the arcs of the non-empty positive slices, which add up to the total |
| MyDataAssets.Largest | welfare-dashboard-demo/src/pages/MyDataAssetsPage.tsx:86 | the largest slice value is at least every slice value and is one of them |
| MyDataAssets.MaxSlice | welfare-dashboard-demo/src/pages/MyDataAssetsPage.tsx:85-88 | the scale is positive; when some slice is positive it is the largest slice value, otherwise 1 |
| MyDataAssets.BarWidthsInRange | welfare-dashboard-demo/src/pages/MyDataAssetsPage.tsx:186 | every bar is between 0 and 100 % wide, and the largest positive slice fills its bar |
| MyDataAssets.BarWidthInRange | welfare-dashboard-demo/src/pages/MyDataAssetsPage.tsx:186 | a value between 0 and the scale gets a bar between 0 and 100 %, and the scale itself gets 100 % |
| MyDataAssets.LoanSumZero | welfare-dashboard-demo/src/pages/MyDataAssetsPage.tsx:92-93 | with no negative amount the loan total is non-negative, and 0 exactly when every loan has no amount outstanding |
| MyDataFinance.MonthsLeft | welfare-dashboard-demo/src/pages/MyDataFinancePage.tsx:15 | the months left are never negative, and a non-negative stored figure is taken as given |
| MyDataFinance.MaturityWithoutInterest | welfare-dashboard-demo/src/pages/MyDataFinancePage.tsx:14-17 | with no months left or no rate the maturity estimate is the principal rounded to the won |
| MyDataFinance.MaturityIsPrincipalPlusInterest | welfare-dashboard-demo/src/pages/MyDataFinancePage.tsx:14-17 | the estimate is the principal plus the simple interest the backend's switching analysis computes for the same rate and months |
| MyDataFinance.MaturityGrowsWithTime | welfare-dashboard-demo/src/pages/MyDataFinancePage.tsx:14-17 | with a non-negative principal and rate, more months left never lower the estimate |
| MyDataFinance.SummaryOf | welfare-dashboard-demo/src/pages/MyDataFinancePage.tsx:11-68 | the loan badge warns exactly when the loan total is positive, the product details show exactly when it has a name, and the loan count and total are those of the stored loans |
| MyDataFinance.BadgeMeansDebt | welfare-dashboard-demo/src/pages/MyDataFinancePage.tsx:44 | with no negative amount the badge warns exactly when some loan has an amount outstanding |
| SavingsOverview.OverviewDefaults | welfare-dashboard-demo/src/pages/SavingsOverview.tsx:12-17 | without stored data or a savings product the panel shows a zero principal, maturity and rate; without a loan list it shows no loans |
| SavingsOverview.OverviewAgreesWithFinancePage | welfare-dashboard-demo/src/pages/SavingsOverview.tsx:12-16 | the panel and the financial-products page show the same principal, maturity estimate and loan count for a stored product |
| SavingsOverview.AverageRateIsTypedRate | welfare-dashboard-demo/src/pages/SavingsOverview.tsx:17 | the average rate is the percentage the form's rate box shows, so a rate typed there reads back unchanged |
| WelfareResults.Recommendations | welfare-dashboard-demo/src/components/WelfareResults.tsx:8-27 | three cards: basic livelihood follows the base eligibility, micro-finance follows its eligibility, the local-search card is always on, each with the matching tag |
| WelfareResults.Ratio | welfare-dashboard-demo/src/components/WelfareResults.tsx:29 | the ratio never exceeds 1 |
| WelfareResults.BarWidth | welfare-dashboard-demo/src/components/WelfareResults.tsx:44 | the bar is between 12 and 100 % wide, and between 120 000 and 1 000 000 won per head it is the per-capita figure in units of 10 000 won |
| WelfareResults.ResultsFollowRecognition | welfare-dashboard-demo/src/components/WelfareResults.tsx:8-44 | for the application's own figures the first card is on exactly when the per-capita income is under 700 000, the second exactly when the total is under 2 500 000, and a recommended first card has a bar under 70 % |
| DSAEngine.Filter | welfare-dashboard-demo/src/components/DSAEngine.tsx:26 | an option is kept exactly when it is offered and its minimum term fits the months remaining |
| DSAEngine.InterestMonotoneInRate | welfare-dashboard-demo/src/components/DSAEngine.tsx:16-18 | for a non-negative principal and term, a higher rate never earns less interest |
| WelfareService.RatioMonotone | backend/app/services/welfare_service.py:21 | for a listed household size, a larger recognised income never gives a smaller ratio |
| FinanceRecommendation.SimpleInterestMonotone | backend/app/services/finance_recommendation.py:20-21 | for a positive principal and term, a higher rate never earns less interest |
| StableSort.Insert | backend/app/services/welfare_recommendation.py:81 | inserting one element adds exactly that element: one longer, same multiset plus it |

## Left out

- Network and storage I/O are parameters or are left out. This covers the `fetch` wrappers, the provider's HTTP call with its JSON and XML decoding and mock-file fallback, `localStorage` (a stored token or selection is passed in as an `Option`), the database, and the scheduler.
- The language-model call in `chat_service.py` is an opaque library call. The model stops at the request it would be given.
- The provider's `LAST_ERROR` global is not modelled. It belongs to the I/O path and no result depends on it.
- Message ids (`createId` uses the clock and randomness) are taken as a counter in the session.
- The chat's inline rendering and all JSX output are not modelled.
- ChatScanner.MinDistance: positions in the chat text are counted in characters (Unicode scalar values), as are `ChatScanner.CandidateAt`'s start and end and the 2-, 3- and 5-position context windows of `NotAgeContext` and `NotPersonContext`. JavaScript counts UTF-16 code units, because the pattern has no `u` flag (ChatBot.tsx:51, :64-65, :77-88 and :119-131), so a character outside the Basic Multilingual Plane, such as an emoji, counts as two there. In text holding such characters, the nearest number and the context windows can differ from the page's: for "100만😀😀소득   200만원" the page picks 200만 and the model picks 100만. The model reads characters because strings are sequences of characters here; splitting them into surrogate pairs would change every text lemma.
- Number formatting is modelled structurally: which sentences, lines or reasons appear and which figures they carry, not the exact text. This covers `Intl.NumberFormat`, `toLocaleString`, `toFixed` and Python f-strings.
- UI colours and labels are not modelled, nor the real-estate share shown beside the donut (`realEstateShare`). The latter is display only.
- Floating-point effects are not modelled: binary rounding of money and rates, `NaN` and the infinities. All figures are exact reals. Python's `round(x, 2)` is half-to-even on the exact value.
- Text case is folded for ASCII letters only. This stands for JavaScript's `toLowerCase` and Python's `lower`, which the model applies to ASCII text; Unicode case folding is not modelled.
- `REGION_CODE_MAP` lookups of inherited object keys are not modelled. In JavaScript, a name such as `constructor` would find a prototype member.
- The KoreaMap DOM handlers, the nearest-label geometry and `window.prompt` are not modelled. Only `toKorean` is part of the core.
- FinanceParse.ParseFloat: the contract states the non-text cases only. For text, the lemmas state that integer numerals are read as Python reads them. Exponents, `inf`, `nan` and digit underscores are not read.
- FinanceParse.ParseCurrency: the contract states the `None`, number and empty-container cases. Text is stated by separate lemmas (`RejectedAreNotNumerals`, `CurrencyIgnoresDecoration`), and lists and dictionaries by `CurrencyOfList` and `CurrencyOfDict` for one-digit integers. A container holding a float reads as None, because the shortest round-trip digits of a float's `repr()` are not modelled. `repr()` escapes other than the backslash, the quote, `\n`, `\t` and `\r` are not modelled either.
- App.ParseJsNumber: the contract states the empty text, digits only, and a sign before an unsigned decimal. `Number()`'s exponent, hexadecimal, octal and binary forms and `Infinity` are not modelled; the body reads them as NaN.
- The URL parser is modelled only in its fragment state, which is all that assigning `location.hash` runs. A `%` in a route is kept as it is and may start an escape on reading, so `App.WelfareCategoryRoundTrip` and `Location.DecodeFragment` are stated for names without `%`, tab or newline.
- A URIError thrown by `decodeURIComponent` during rendering is modelled as None. What React then shows is not modelled.
- WelfareProvider.Cleaned: the contract states the shape of the categories kept. That every well-formed category survives is stated separately, by `CleanedKeeps`.
- MyDataFinance.SummaryOf: a stored form without a savings record is outside its precondition. The page reads the savings fields unguarded and fails on such a record.
- The request schema reads the penalty rate as `penalty`; the client's form calls it `earlyTerminatePenaltyRate`. After validation only `penalty` reaches the recommender, so the recommender's fallback to the second name is not modelled.
- The schemas are read as pydantic 2 reads them. A `str` field refuses a value that is not text, and an `int` field refuses a float with a fractional part. Pydantic 1 would turn a number into text and cut a float toward zero; neither is modelled.
- FinanceRouter.CoerceInt: integer text is read as Python's `int()` reads it, by way of `FinanceParse.ParseInt`. Pydantic 2's own text rules differ in detail: it also takes text such as `"2.0"`, which the model refuses.
- Pydantic's coercion is limited to what the schema's fields need:
  - numbers, numeric strings and the blank-to-zero hook are modelled;
  - other string forms are read as refused;
  - only the first refusal of a body is reported.
- FinanceParse.ParseInt: text is read as ASCII digits after an optional sign. `int()` also accepts digit-group underscores (`"1_2"`) and non-ASCII decimal digits (`"１２"`), both read as 12; the model reads them as None.
- WelfareService.CalculateIncomeRecognition: the report's `effective_date` is today's date from the clock, and is not modelled. The other four fields are.
- WelfareRecommendation.PreferencePoints: categories are typed as text. When the user has preferences, `c.lower()` runs on every category (welfare_recommendation.py:18). A category that is not text, which the provider passes on from a list as it is, raises `AttributeError`; the model does not.
- WelfareRecommendation.RecommendWelfare: for the same reason, the model does not raise on a programme with a category that is not text.
- JSON object keys compare as strings. A server dictionary is a list of entries in insertion order, and a lookup finds the first entry.
- The two text quick actions of the chat ("월 소득 300만원", "가구원 3명") are stated through the intent their text produces. `ChatBot.IncomeQuickAction` and `ChatBot.HouseholdQuickActionAsWritten` state that intent; `ChatSession.IncomeQuickTrimmed` and `ChatSession.HouseholdQuickTrimmed` connect it to sending. They are not methods of their own.

## Findings

| source | as written | input that shows it | evidently intended | confidence | as-written member | corrected member |
|---|---|---|---|---|---|---|
| welfare-dashboard-demo/src/components/ChatBot.tsx:212-239 | the money normalisation (`normalizeCurrency`) is applied to the rate, the months and the penalty, so a small bare number is multiplied by 10 000 | "8개월" sets 80 000 months remaining; "금리 3%" sets an annual rate of 300 (30 000 %) | read the raw count: 8 months, and a rate of 0.03 | high (not executed) | ChatBot.MonthsSampleAsWritten, ChatBot.RateSampleAsWritten | ChatBot.MonthsSampleCorrected, ChatBot.RateSampleCorrected, ChatBot.CountVersusAmount |
| welfare-dashboard-demo/src/components/ChatBot.tsx:86-90 | the unit character after a number is part of the number's span, so a 명 directly after it is not seen as a head-count hint | the quick action "가구원 3명이고요" sets no household size and gives no local summary (only the backend's reply is shown) | the household size is set to 3 | high (not executed) | ChatBot.HouseholdQuickActionAsWritten | ChatBot.HouseholdQuickCorrected, ChatBot.HeadCountWidens |
| backend/app/services/welfare_provider.py:156-161 | when `body.items` is a dictionary (the portal's `{"item": [...]}` container) it is wrapped as a single record | a response whose `body.items` is `{"item": [r1, r2]}` yields one programme named "무제" | descend into `items.item` and map each record | medium (not executed) | WelfareProvider.ItemsContainerAsWritten, WelfareProvider.Programs | WelfareProvider.ItemsContainerCorrected, WelfareProvider.CorrectionAgreesOnLists, WelfareProvider.ProgramsCorrected |
| welfare-dashboard-demo/src/pages/MyDataAssetsPage.tsx:50-53 | the liquidity ratio reads deposits and other assets unclamped, while the total is made of clamped slices | real estate 100 000 000 with deposits -10 000 000 gives a liquidity ratio of -0.1 | a ratio in [0, 1] over the same clamped figures as the total | low (not executed) | MyDataAssets.LiquidityRatioAsWritten, MyDataAssets.LiquidityPercentAsWritten | MyDataAssets.LiquidityRatioCorrected, MyDataAssets.LiquidityCorrectionAgrees |
