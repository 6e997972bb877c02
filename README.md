# Number1 teaching scripts — a verified Dafny model

This project models the nine scripts under `Assignment/AssignmentProject/Number1/`. Each script is a small, self-contained exercise, and each becomes one Dafny module:

| script | module | file | what it is |
|---|---|---|---|
| `number10.py` | `UserProfiles` | `profile_codec.dfy` | user profiles: validation, in-place preference merge, record and JSON round trip, backup recovery |
| `number9.py` | `Inventory` | `inventory.dfy` | an inventory item whose quantity never goes negative |
| `number3.py` | `Bookstore` | `bookstore.dfy` | a list of books, deduplicated case-insensitively, with stock updates and a text report |
| `number6.py` | `MarketingMetrics`, `MarketingDemonstration` | `marketing.dfy` | per-channel metric dictionaries: in-place merge and totals over all channels |
| `number7.py` | `TimingKernels` | `timing.dfy` | factorial, Fibonacci, a triple-loop matrix product, and the timing log of the decorator |
| `number5.py` | `StudySchedule` | `study_schedule.dfy` | a validated append to a study schedule |
| `number8.py` | `Employees` | `employee.dfy` | an employee record with validated setters and a shared construction counter |
| `number4.py` | `LambdaHelpers` | `lambdas.dfy` | helpers written both as functions and as lambdas, and the filters built from them |
| `number2.py` | `Weather` | `weather.dfy` | the six-way activity recommendation |

Two shared modules support these:

- `Wrappers` (`wrappers.dfy`) defines `Option` and `Result`. A Python exception becomes a `Failure` carrying the error.
- `PyText` (`py_text.dfy`) defines the parts of Python's `str` the scripts use: `isspace`, `strip`, `isdigit`, `int(...)` of a digit string, `str(...)` of an int, `lower`, the `<`/`>` padding of format specifications, `center`, repetition and `join`.

Each core file is modelled in the same form as the source:

- Objects whose fields are updated in place become classes with `modifies` clauses. These are `InventoryItem`, `Employee`, `BookstoreInventory`/`Book`, `UserProfile`, `MarketingData`, `TimerDecorator` and `StudyList`.
- Loops become methods with loop invariants. Each is proved against a specification function, and the properties the script promises are proved about that function.
- Pure code becomes functions and lemmas. This covers the lambdas, the recommender, the validators, `to_dict` and the backup coercion.

The rest of the environment becomes parameters:

- The JSON text layer is a pair `encode`/`parse`.
- The clock is a timestamp `now`.
- `str()` of floats, lists and dicts is a function `render`.
- The price format of `number3.py` is a function `formatPrice`.

## Model

| member | source | states |
|---|---|---|
| UserProfiles.ValidateName | Assignment/AssignmentProject/Number1/number10.py:48-55 | a name is accepted exactly when it is a string that is not blank after `strip()` and has at most 100 characters; the first failing check gives its error |
| UserProfiles.ValidateAge | Assignment/AssignmentProject/Number1/number10.py:57-62 | an age is accepted exactly when it is an integer from 0 to 150; a non-integer gives the type error and an out-of-range integer the range error (corrected version, see Findings) |
| UserProfiles.CheckAgeAsWritten | Assignment/AssignmentProject/Number1/number10.py:57-62 | the age check as written also accepts the bools, because `isinstance(True, int)` holds |
| UserProfiles.ValidateEmail | Assignment/AssignmentProject/Number1/number10.py:64-69 | an email is accepted exactly when it is a string holding both '@' and '.' |
| UserProfiles.DefaultPreferences | Assignment/AssignmentProject/Number1/number10.py:44 | `preferences or {}`: a truthy value is kept, a falsy one becomes the empty dictionary |
| UserProfiles.Get | Assignment/AssignmentProject/Number1/number10.py:116 | `dict.get` gives the stored value for a present key and the default otherwise |
| UserProfiles.CheckProfile | Assignment/AssignmentProject/Number1/number10.py:27-46 | construction succeeds exactly when name, age and email pass and the preferences after `or {}` can be encoded, whatever their type; the error reported is the first failing check in the order name, age, email, preferences; a new profile holds the given fields, the preferences after `or {}`, and `created_at == last_updated == now` |
| UserProfiles.BoolAgeAccepted | Assignment/AssignmentProject/Number1/number10.py:57-62 | `True` passes the age check as written (as age 1), while the intended check rejects it |
| UserProfiles.UnserializablePreferencesAccepted | Assignment/AssignmentProject/Number1/number10.py:37-46 | for any valid name and email, the constructor as written accepts `{"complex_obj": object()}`, while the corrected constructor rejects it, as the scenario at number10.py:368-369 expects |
| UserProfiles.ValidationBoundaries | Assignment/AssignmentProject/Number1/number10.py:54-55 | a 100-character name passes and a 101-character name fails; ages 0 and 150 pass, while -1 and 151 fail |
| UserProfiles.InvalidTypesReportAge | Assignment/AssignmentProject/Number1/number10.py:364 | with a valid name, a string age and an invalid email, the age error is the one reported, because age is checked before email |
| UserProfiles.UserProfile.Create | Assignment/AssignmentProject/Number1/number10.py:27-46 | construction by the corrected constructor (see Findings) fails exactly when its checks fail, with their error; any truthy preferences value, dictionary or not, is accepted when it can be encoded; on success the new object is valid and holds the checked fields |
| UserProfiles.UserProfile.constructor | Assignment/AssignmentProject/Number1/number10.py:41-46 | the object holds exactly the given fields |
| UserProfiles.UserProfile.UpdatePreferences | Assignment/AssignmentProject/Number1/number10.py:71-87 | a non-dict argument is rejected; if any value cannot be encoded, one such key is reported; if the stored preferences are not a dictionary, `update` fails with the `AttributeError` text naming their type; every failure changes nothing; otherwise the preferences become the old entries overridden by the new ones, `last_updated` becomes `now`, and the profile stays valid |
| UserProfiles.ToRecord | Assignment/AssignmentProject/Number1/number10.py:89-99 | the record has exactly the seven keys, with `_version` set to "1.0" |
| UserProfiles.UserProfile.ToDict | Assignment/AssignmentProject/Number1/number10.py:89-99 | `_version` is "1.0", and for a valid profile `from_dict` of the record gives the same profile back |
| UserProfiles.FromRecord | Assignment/AssignmentProject/Number1/number10.py:101-128 | a missing name, age or email is reported, in that order; with all three present, the result succeeds exactly when the corrected constructor (see Findings) accepts them with `data.get('preferences', {})`, and otherwise fails with `InvalidData` carrying that constructor's error; a built profile is valid, holds the record's name, age and email and its preferences after `or {}`, and takes `created_at`/`last_updated` from the record when they are present, and `now` otherwise |
| UserProfiles.UserProfile.FromDict | Assignment/AssignmentProject/Number1/number10.py:101-128 | the method fails exactly when `FromRecord` does, with the same error; otherwise it returns a fresh valid object holding `FromRecord`'s profile |
| UserProfiles.CheckProfileOfValid | Assignment/AssignmentProject/Number1/number10.py:112-117 | the constructor accepts the fields of any valid profile unchanged |
| UserProfiles.RecordRoundTrip | Assignment/AssignmentProject/Number1/number10.py:89-125 | `from_dict(to_dict(p))` reproduces every field of a valid profile, timestamps included |
| UserProfiles.Serialize | Assignment/AssignmentProject/Number1/number10.py:151-179 | serialization fails with `NotSerializable` exactly on an unencodable record, and otherwise succeeds exactly when the parsed-back text is an object whose "name" is the profile's name, failing with `IntegrityCheckFailed` when it is not; the text it returns is the encoding, and it parses back to an object whose name is the profile's name |
| UserProfiles.Deserialize | Assignment/AssignmentProject/Number1/number10.py:225-244 | empty input, unparsable text, a non-object top level and a missing name are rejected; a parsed object is handed to `from_dict` unchanged, so every other outcome (a missing age or email, data the corrected constructor rejects, the restored timestamps) is `FromRecord`'s; a built profile is valid |
| UserProfiles.VersionIgnored | Assignment/AssignmentProject/Number1/number10.py:238-244 | any `_version` value, or none at all, gives the same result |
| UserProfiles.SerializeRoundTrip | Assignment/AssignmentProject/Number1/number10.py:137-247 | when `encode`/`parse` reproduce this profile's record, serializing a valid profile succeeds, and deserializing the text gives the same profile at any time `now` |
| UserProfiles.RecoverAge | Assignment/AssignmentProject/Number1/number10.py:311 | the backup age is never negative |
| UserProfiles.RecoverAgeExactly | Assignment/AssignmentProject/Number1/number10.py:311 | the backup age keeps a non-negative int or the value of a digit string, and is 0 for everything else, "invalid" included |
| UserProfiles.BackupDeserialize | Assignment/AssignmentProject/Number1/number10.py:286-321 | unparsable text or a non-object gives no profile; for an object, a profile is recovered exactly when the corrected constructor (see Findings) accepts the coerced fields; a recovered profile is valid, stamped `now`, has the age from the digits rule, `str()` of a truthy name or email and "Unknown User"/"unknown@example.com" for a falsy one, dictionary preferences as given (after `or {}`) and `{}` for non-dict ones |
| UserProfiles.BackupRecoversCorrupted | Assignment/AssignmentProject/Number1/number10.py:384-387 | the corrupted record with age "invalid" is recovered with age 0 and its other fields kept |
| UserProfiles.BackupAgreesWithFromRecord | Assignment/AssignmentProject/Number1/number10.py:101-128 | on the record of a valid profile with dictionary preferences, the backup path (number10.py:286-321) recovers the same profile as `from_dict`, apart from both timestamps being `now` |
| Inventory.InventoryItem.Create | Assignment/AssignmentProject/Number1/number9.py:7-26 | an empty id, an empty name and a negative quantity are rejected in that order; otherwise the item holds the given fields and is valid |
| Inventory.InventoryItem.Init | Assignment/AssignmentProject/Number1/number9.py:7-26 | `__init__` once its three checks have passed (they are made by `Create`): the item holds exactly the given fields and is valid |
| Inventory.InventoryItem.SetItemId | Assignment/AssignmentProject/Number1/number9.py:56-73 | an empty id is rejected and leaves the id; otherwise only the id is replaced |
| Inventory.InventoryItem.SetName | Assignment/AssignmentProject/Number1/number9.py:75-92 | an empty name is rejected and leaves the name; otherwise only the name is replaced |
| Inventory.InventoryItem.SetQuantity | Assignment/AssignmentProject/Number1/number9.py:94-117 | a negative quantity is rejected and leaves the quantity; otherwise only the quantity is replaced, and it stays non-negative |
| Inventory.InventoryItem.IncreaseQuantity | Assignment/AssignmentProject/Number1/number9.py:119-133 | a non-positive amount is rejected with no change; otherwise the quantity rises by exactly the amount |
| Inventory.InventoryItem.DecreaseQuantity | Assignment/AssignmentProject/Number1/number9.py:135-152 | a non-positive amount, or more than is in stock, is rejected with no change; otherwise the quantity falls by exactly the amount and stays non-negative |
| Inventory.InventoryItem.Restock | Assignment/AssignmentProject/Number1/number9.py:154-162 | exactly the behaviour of `increase_quantity` |
| Inventory.InventoryItem.Sell | Assignment/AssignmentProject/Number1/number9.py:164-172 | exactly the behaviour of `decrease_quantity`; it succeeds exactly when the amount is positive and in stock |
| Inventory.InventoryItem.IsOutOfStock | Assignment/AssignmentProject/Number1/number9.py:191-198 | a valid item is out of stock exactly when no sale of any amount can succeed |
| Inventory.InventoryItem.IsLowStock | Assignment/AssignmentProject/Number1/number9.py:200-210 | for a positive threshold, the item is low on stock exactly when selling `threshold` units would fail |
| Inventory.OutOfStockIsLowStock | Assignment/AssignmentProject/Number1/number9.py:191-210 | an item out of stock is low on stock for every positive threshold, the default 10 included |
| Inventory.LaptopScenario | Assignment/AssignmentProject/Number1/number9.py:236-326 | the laptop ends at 21 units; selling 1000 is refused for insufficient stock, setting -5 is refused, and the item is neither out of stock nor low at 20 or 10 |
| Bookstore.Book.constructor | Assignment/AssignmentProject/Number1/number3.py:12-25 | the book holds exactly the given fields |
| Bookstore.Book.UpdateStock | Assignment/AssignmentProject/Number1/number3.py:27-34 | the stock becomes the new quantity, unchecked |
| Bookstore.FirstMatch | Assignment/AssignmentProject/Number1/number3.py:77-79 | the index found is a case-insensitive match with no match before it; there is no index exactly when no book matches |
| Bookstore.MatchesSymmetric | Assignment/AssignmentProject/Number1/number3.py:78 | the case-insensitive comparison is symmetric |
| Bookstore.BookstoreInventory.constructor | Assignment/AssignmentProject/Number1/number3.py:49-51 | the inventory starts empty, and so without duplicates |
| Bookstore.BookstoreInventory.AddNewBook | Assignment/AssignmentProject/Number1/number3.py:53-84 | empty fields, a negative price and a negative stock are rejected in that order, then a case-insensitive duplicate; each failure leaves the list alone; a success appends exactly one book with the given fields; no two books ever match |
| Bookstore.BookstoreInventory.UpdateStock | Assignment/AssignmentProject/Number1/number3.py:86-108 | a negative quantity is rejected; otherwise only the first match's stock changes, and with no match a not-found error is returned and nothing changes |
| Bookstore.BookstoreInventory.FindBook | Assignment/AssignmentProject/Number1/number3.py:136-150 | a book is returned exactly when one matches, and it is the first match |
| Bookstore.ReportHead | Assignment/AssignmentProject/Number1/number3.py:121-125 | the report opens with five lines, the first of them the rule |
| Bookstore.BookLines | Assignment/AssignmentProject/Number1/number3.py:128-129 | one `display_info()` line per book, in list order |
| Bookstore.BookstoreInventory.ReportLines | Assignment/AssignmentProject/Number1/number3.py:120-132 | the report has the book count plus 7 lines: it opens with the rule, line 5+i shows book i, and it ends with "Total books in inventory: n" |
| Bookstore.BookstoreInventory.CollectBookLines | Assignment/AssignmentProject/Number1/number3.py:128-129 | the loop produces exactly the per-book lines |
| Bookstore.BookstoreInventory.DisplayAllBooks | Assignment/AssignmentProject/Number1/number3.py:110-134 | an empty inventory gives "No books in inventory."; otherwise the report lines are joined with newlines |
| Bookstore.BookstoreInventory.ReportShape | Assignment/AssignmentProject/Number1/number3.py:117-134 | a non-empty report starts with the rule, ends with the count of books and is never the empty-inventory message |
| Bookstore.BookstoreInventory.MatchIsUnique | Assignment/AssignmentProject/Number1/number3.py:77-79 | in a valid inventory at most one book matches a (title, author) pair |
| Bookstore.BookstoreInventory.DistinctBooks | Assignment/AssignmentProject/Number1/number3.py:81-83 | a valid inventory never holds the same book object twice |
| Bookstore.AddDemonstration | Assignment/AssignmentProject/Number1/number3.py:166-169 | two books are added and the second "1984" is refused as a duplicate |
| Bookstore.Demonstration | Assignment/AssignmentProject/Number1/number3.py:166-185 | after the updates, "1984" has stock 20, the other book keeps 20, and the unknown book is not found |
| MarketingMetrics.MarketingData.constructor | Assignment/AssignmentProject/Number1/number6.py:1 | the dictionary holds the given channels |
| MarketingMetrics.UpdateMetrics | Assignment/AssignmentProject/Number1/number6.py:1-42 | a non-dict update and then an empty channel are rejected with no change; a new channel gets a copy of the update; an existing channel keeps unmentioned metrics and takes the new values of mentioned ones; other channels are untouched; the same dictionary is returned |
| MarketingMetrics.MergeMetrics | Assignment/AssignmentProject/Number1/number6.py:30-40 | the metric-by-metric loop leaves the channel holding the old metrics overridden by the new ones, and every other channel as it was |
| MarketingMetrics.TotalRemove | Assignment/AssignmentProject/Number1/number6.py:69 | a total does not depend on the order in which the channels are traversed |
| MarketingMetrics.TotalAdd | Assignment/AssignmentProject/Number1/number6.py:69-93 | a channel joining the traversal adds its numeric value to the total |
| MarketingMetrics.TotalZero | Assignment/AssignmentProject/Number1/number6.py:81-93 | a metric that no channel holds as a number totals 0 |
| MarketingMetrics.NumericNamesAdd | Assignment/AssignmentProject/Number1/number6.py:88-93 | the totalled metrics grow by the numeric metrics of the joining channel |
| MarketingMetrics.MetricNamesAdd | Assignment/AssignmentProject/Number1/number6.py:77-78 | `metrics_found` grows by the metric names of the joining channel |
| MarketingMetrics.ExpectedEmpty | Assignment/AssignmentProject/Number1/number6.py:60-66 | the summary starts with the three fixed totals at 0 and no metric names |
| MarketingMetrics.TallyStep | Assignment/AssignmentProject/Number1/number6.py:77-93 | counting one more metric keeps the tally equal to its specification |
| MarketingMetrics.ExpectedHasCore | Assignment/AssignmentProject/Number1/number6.py:60-63 | clicks, impressions and conversions always have a total |
| MarketingMetrics.ChannelDone | Assignment/AssignmentProject/Number1/number6.py:69-93 | once its metrics are counted, a channel joins the finished ones; a non-dict channel contributes nothing |
| MarketingMetrics.TallyMetric | Assignment/AssignmentProject/Number1/number6.py:77-93 | one pass of the inner loop: the name is recorded and a numeric value is added to its total, created at 0 when the metric is not one of the fixed three |
| MarketingMetrics.TallyChannel | Assignment/AssignmentProject/Number1/number6.py:77-93 | the inner loop tallies exactly the channel's metrics |
| MarketingMetrics.TallyEntry | Assignment/AssignmentProject/Number1/number6.py:69-93 | a non-dict channel is skipped; a dictionary is counted as analysed and tallied |
| MarketingMetrics.TallyChannels | Assignment/AssignmentProject/Number1/number6.py:60-93 | the outer loop ends with every total equal to its sum over all channels, and with the dictionary channels counted |
| MarketingMetrics.SummarizeMetrics | Assignment/AssignmentProject/Number1/number6.py:45-106 | the totals exist for the fixed three and every numeric metric, each equal to its sum over the dictionary channels; only dictionary channels are counted; every metric name is recorded; CTR is 0 when impressions are 0 and the conversion rate is 0 when clicks are 0 |
| MarketingDemonstration.MergeDemonstration | Assignment/AssignmentProject/Number1/number6.py:210-212 | updating `google_ads` with clicks 1600 and conversions 80 keeps its impressions and cost |
| MarketingDemonstration.ErrorHandlingDemonstration | Assignment/AssignmentProject/Number1/number6.py:293-309 | a non-dict update and an empty channel are refused, and the test channel is unchanged |
| TimingKernels.FactorialRecursive | Assignment/AssignmentProject/Number1/number7.py:160-166 | the factorial is at least 1 |
| TimingKernels.FactorialIterative | Assignment/AssignmentProject/Number1/number7.py:171-178 | the loop computes exactly the recursive factorial, for every integer |
| TimingKernels.FibonacciRecursive | Assignment/AssignmentProject/Number1/number7.py:183-189 | the value is non-negative for n >= 0 and positive for n >= 2 |
| TimingKernels.FibonacciIterative | Assignment/AssignmentProject/Number1/number7.py:194-204 | the pair loop computes exactly the recursive Fibonacci number, and n itself for n <= 1 |
| TimingKernels.MatrixOperations | Assignment/AssignmentProject/Number1/number7.py:219-233 | the result is size by size, and entry [i][j] is the sum over k of (i*k)*(k*j) |
| TimingKernels.ProductSumFactors | Assignment/AssignmentProject/Number1/number7.py:224-231 | each entry of the product is i*j times the sum of the first `size` squares |
| TimingKernels.SumOfSquaresClosedForm | Assignment/AssignmentProject/Number1/number7.py:224-231 | the sum of squares in that entry has the closed form (m-1)m(2m-1)/6 |
| TimingKernels.AppendedTwice | Assignment/AssignmentProject/Number1/number7.py:71-74 | two rounds of appends under one name append the two counts |
| TimingKernels.TimerDecorator.constructor | Assignment/AssignmentProject/Number1/number7.py:12-23 | a new decorator has its flags and an empty `timing_data` |
| TimingKernels.TimerDecorator.Record | Assignment/AssignmentProject/Number1/number7.py:70-74 | with `store_results`, exactly one entry is appended under the function's name, creating the list when needed; other functions' records are unchanged; without it nothing changes |
| TimingKernels.TimerDecorator.Wrap | Assignment/AssignmentProject/Number1/number7.py:57-78 | the wrapper returns the function's outcome and logs one entry, as `Record` does |
| TimingKernels.TimerDecorator.GetStats | Assignment/AssignmentProject/Number1/number7.py:99-136 | `{}` exactly when nothing is stored or the named function is absent; otherwise the named function's call count is its number of entries, or every function is listed with its count |
| TimingKernels.TimerDecorator.ResetStats | Assignment/AssignmentProject/Number1/number7.py:138-149 | with a name, only that key is removed; without one, `timing_data` is emptied |
| TimingKernels.FactorialCalls | Assignment/AssignmentProject/Number1/number7.py:159-166 | the decorated recursive factorial makes n timed calls, or 1 for n <= 1 |
| TimingKernels.FibonacciCallsClosedForm | Assignment/AssignmentProject/Number1/number7.py:182-189 | the decorated recursive Fibonacci makes 2*F(n+1) - 1 timed calls |
| TimingKernels.TimedFactorial | Assignment/AssignmentProject/Number1/number7.py:155-166 | the decorated factorial returns the plain factorial and appends one entry per recursive call under "factorial_recursive" |
| TimingKernels.TimedFibonacci | Assignment/AssignmentProject/Number1/number7.py:182-189 | the decorated Fibonacci returns the plain value and appends one entry per recursive call under "fibonacci_recursive" |
| TimingKernels.FactorialDemonstration | Assignment/AssignmentProject/Number1/number7.py:248-254 | factorial(5) is 120 from the timed recursive function and from the loop of `factorial_iterative` taken undecorated (the script's `@TimerDecorator` wrapper does not return it, see Left out), and the shared timer then reports 5 calls of the recursive factorial |
| StudySchedule.StudyList.constructor | Assignment/AssignmentProject/Number1/number5.py:53 | a new schedule is empty |
| StudySchedule.AddSession | Assignment/AssignmentProject/Number1/number5.py:1-21 | an empty session is rejected and leaves the schedule; otherwise the schedule becomes the old one followed by the session, and the same list is returned |
| StudySchedule.AddSessions | Assignment/AssignmentProject/Number1/number5.py:57-67 | n valid adds append exactly those n sessions in order; the first empty one stops the loop after the sessions before it |
| StudySchedule.DuplicateSessionsKept | Assignment/AssignmentProject/Number1/number5.py:161-166 | a duplicate session is kept, so both copies are present |
| StudySchedule.BasicDemonstration | Assignment/AssignmentProject/Number1/number5.py:46-69 | five adds to an empty list give exactly those five sessions, in order |
| Employees.EmployeeRegistry.constructor | Assignment/AssignmentProject/Number1/number8.py:24 | the shared count starts at 0 |
| Employees.EmployeeInfo | Assignment/AssignmentProject/Number1/number8.py:79-81 | the info text is the labelled id, the labelled name and the labelled department, each readable at its place between the fixed labels |
| Employees.Employee.constructor | Assignment/AssignmentProject/Number1/number8.py:10-24 | id, name and department are stored as given, without checks, and the shared count rises by one |
| Employees.Employee.SetName | Assignment/AssignmentProject/Number1/number8.py:33-44 | an empty name is rejected and leaves the name; otherwise only the name is replaced, and the department and id are unchanged |
| Employees.Employee.SetDepartment | Assignment/AssignmentProject/Number1/number8.py:52-63 | an empty department is rejected and leaves it; otherwise only the department is replaced, and the name and id are unchanged |
| Employees.Employee.GetEmployeeId | Assignment/AssignmentProject/Number1/number8.py:67-69 | the id read back is the one stored at construction |
| Employees.Employee.GetEmployeeInfo | Assignment/AssignmentProject/Number1/number8.py:72-81 | the text opens with "Employee ID: " and the id, holds the name after the ", Name: " label, and ends with ", Department: " and the department |
| Employees.InfoIdentifiesId | Assignment/AssignmentProject/Number1/number8.py:79-81 | two employees with the same name and department but different ids get different info texts |
| Employees.Demonstration | Assignment/AssignmentProject/Number1/number8.py:152-170 | three constructions give a count of 3; Bob's department becomes "Sales", and an empty name, refused as at line 228, leaves his name unchanged |
| LambdaHelpers.CalculatePercentage | Assignment/AssignmentProject/Number1/number4.py:5-7 | the percentage is 0 for a zero whole, and otherwise the r with r * whole == part * 100 |
| LambdaHelpers.PercentageLambdaAgrees | Assignment/AssignmentProject/Number1/number4.py:26 | the percentage lambda agrees with the function on every input |
| LambdaHelpers.ValidatePositiveNumber | Assignment/AssignmentProject/Number1/number4.py:10-12 | the positivity function agrees with its lambda form (number4.py:29) on every number |
| LambdaHelpers.ExtractField | Assignment/AssignmentProject/Number1/number4.py:15-17 | `record.get(field, None)`: the stored value for a present key, None otherwise |
| LambdaHelpers.ExtractFieldLambdaAgrees | Assignment/AssignmentProject/Number1/number4.py:32 | the curried lambda applied to a record agrees with the function |
| LambdaHelpers.Filter | Assignment/AssignmentProject/Number1/number4.py:84 | filtering keeps every element satisfying the predicate as often as it occurs, and no other element |
| LambdaHelpers.FilterKeepsOrder | Assignment/AssignmentProject/Number1/number4.py:84 | the kept elements appear in their original order |
| LambdaHelpers.PositiveValues | Assignment/AssignmentProject/Number1/number4.py:84 | a value survives the positive filter exactly when it is in the input and positive, and the survivors keep their input order |
| LambdaHelpers.PositiveValuesDemonstration | Assignment/AssignmentProject/Number1/number4.py:55 | the demonstration portfolio keeps 5000, 10000 and 7500, in that order |
| LambdaHelpers.RequiredFieldsMeaning | Assignment/AssignmentProject/Number1/number4.py:135-137 | a record passes exactly when every required field is present and truthy |
| LambdaHelpers.ValidRecords | Assignment/AssignmentProject/Number1/number4.py:134-138 | a record is kept exactly when it is in the input and has every required field, and the kept records are in input order |
| Weather.SuggestActivity | Assignment/AssignmentProject/Number1/number2.py:1-44 | the if/elif chain gives, on every reading, the decision table's entry for (raining, cold, windy) |
| Weather.SuggestionIsOneOfSix | Assignment/AssignmentProject/Number1/number2.py:24-44 | the result is always one of the six fixed recommendations |
| Weather.RainIgnoresWind | Assignment/AssignmentProject/Number1/number2.py:24-29 | when it rains, the wind makes no difference |
| Weather.ThresholdsAreStrict | Assignment/AssignmentProject/Number1/number2.py:15-17 | at exactly 0 precipitation, 15 degrees and wind 20, no condition holds and the picnic is suggested |
| Weather.DemonstrationCases | Assignment/AssignmentProject/Number1/number2.py:53-79 | the six demonstration inputs give picnic, museum, kite, hike, pool and rock climbing |
| PyText.StripEmptyIffAllSpace | Assignment/AssignmentProject/Number1/number10.py:52 | `s.strip()` is empty exactly when `s` is whitespace only |
| PyText.StripLeftShape | Assignment/AssignmentProject/Number1/number10.py:52 | `lstrip` drops a whitespace prefix and leaves no leading whitespace |
| PyText.StripRightShape | Assignment/AssignmentProject/Number1/number10.py:52 | `rstrip` drops a whitespace suffix and leaves no trailing whitespace |
| PyText.NatDigitsRoundTrip | Assignment/AssignmentProject/Number1/number10.py:311 | `int(str(n)) == n` for n >= 0, and `str(n)` is all digits |
| PyText.DecimalDigits | Assignment/AssignmentProject/Number1/number10.py:311 | `str(i).isdigit()` holds exactly for i >= 0, and then `int(str(i)) == i` |
| PyText.DecimalSign | Assignment/AssignmentProject/Number1/number8.py:79 | `str(i)` is non-empty and starts with '-' exactly for negative i |
| PyText.DecimalInjective | Assignment/AssignmentProject/Number1/number8.py:79 | different integers have different renderings |
| PyText.NatDigitsInjective | Assignment/AssignmentProject/Number1/number8.py:79 | different naturals have different digit strings |
| PyText.Lower | Assignment/AssignmentProject/Number1/number3.py:78 | `lower()` keeps the length and lowers each character |
| PyText.Repeat | Assignment/AssignmentProject/Number1/number3.py:121 | `c * n` has length n |
| PyText.RepeatChars | Assignment/AssignmentProject/Number1/number3.py:121 | every character of `c * n` is `c` |
| PyText.PadShape | Assignment/AssignmentProject/Number1/number3.py:38 | `<w` keeps the text in front and `>w` keeps it at the end, padding to the width with spaces only |
| PyText.JoinEnds | Assignment/AssignmentProject/Number1/number3.py:134 | `sep.join(parts)` starts with the first part and ends with the last |

## Left out

- Python's dynamic `isinstance` checks are mostly replaced by Dafny types, so these rejected inputs do not arise: a non-list schedule, a non-string name, session, department or channel, a `None` quantity, a non-dict `marketing_data`, and a non-string preference key. A tagged `Value` is kept where the check changes behaviour: the profile fields, the preference values and the backup age.
- The JSON text layer (`json.dumps`/`json.loads`) is the parameter pair `encode`/`parse`. The round trip is proved for any pair that encodes the profile's own record to a non-empty text and parses that text back to the same record. Floats are reals here, so no single pair can do this for every value, and the model does not claim one does.
- `_json_serializer` is not modelled: it reflects on `__dict__` at run time. The object it cannot encode is `VObject`.
- File reading and writing, their error translation, and logging are not modelled.
- The clock (`datetime.now()`) is the parameter `now`.
- `str()` of floats, lists and dicts is the parameter `render`, and the price format of `display_info` is the parameter `formatPrice`.
- UserProfiles.UserProfile.UpdatePreferences: Python's `AttributeError` from `update` on stored non-dict preferences is not wrapped by anything in `number10.py`; the model returns it as `PreferencesNotUpdatable`.
- UserProfiles.UserProfile: `__init__` stores the caller's preferences dictionary itself, and `update_preferences` mutates it in place, so the caller's dictionary (and any other profile built from it) sees the update. The model holds preferences as a value, so this aliasing is not captured.
- Exception messages are not modelled. `SerializationError`/`DeserializationError` text that wraps another message becomes a structured error (`MissingField`, `InvalidData`, and so on).
- UserProfiles.Serialize: the "integrity check failed" errors from a missing name, a `JSONDecodeError` and a mismatched name are merged into one `IntegrityCheckFailed`.
- UserProfiles.Deserialize: returns the profile's data rather than an object. `UserProfile.FromDict` is the object-building version.
- UserProfiles.UserProfile.UpdatePreferences: states which error is returned for an unencodable value, but not which key it names when several are unencodable. Python reports the first in dictionary order, and the model iterates over a set.
- Dictionary iteration order is not modelled. The loops of `update_metrics`, `summarize_metrics` and `update_preferences` iterate over key sets in any order, and the results are proved not to depend on it.
- `update_metrics` on an existing channel whose entry is not a dictionary is approximated by `ExistingNotDict`. Python fails on the first item assignment, so an empty update succeeds.
- MarketingMetrics.UpdateMetrics: an inner dictionary is shared with the caller in Python, so later changes show through aliases; the model copies values.
- Metric values that are floats are not modelled (only ints, bools and other values). The CTR and conversion-rate values are reals, and only their zero guards and defining ratios are stated.
- The averages, minima, maxima and totals of `get_stats` are not modelled: they are float arithmetic over wall-clock times. Only presence and call counts are.
- Wall-clock timing (`time.perf_counter`, `time.sleep`), printing of timings, and the simulated API, data-processing and file operations of `number7.py` are not modelled.
- The decorator machinery of `number7.py` (`functools.wraps`, rebinding `__call__`) is not modelled. The plain `@TimerDecorator` form binds `__call__` on the instance, which Python does not use for calls, so those decorated functions return a wrapper rather than their value. The model times only the instance-decorator and parameterised forms.
- `Employee.__del__`, the decrement of `_employee_count` during garbage collection and `gc.collect` are not modelled: they depend on finalisation timing.
- The name-mangling and encapsulation demonstrations of `number9.py`, `get_item_info`, `display_info`, `__str__`/`__repr__`, and the explanatory text functions are not modelled.
- Interactive `input()` menus and all console printing are not modelled.
- `str.lower` covers ASCII letters only, and `str.isdigit` covers ASCII digits only. Python also treats characters such as '²' as digits, and `int()` of those raises.
- Book title and author are immutable fields: the source never reassigns them.
- Bookstore.Demonstration: keeps "1984" and "Pride and Prejudice" and leaves out the first two books and their stock update. These follow the same steps.
- The float results of `number4.py` (price ratios, formatted returns) and its map/sort demonstrations are not modelled. Percentages are over `real`.

## Findings

| source | as written | input that shows it | evidently intended | confidence | as-written member | corrected member |
|---|---|---|---|---|---|---|
| Assignment/AssignmentProject/Number1/number10.py:57-62 | `isinstance(age, int)` holds for `True` and `False`, so a bool passes as age 1 or 0 | `UserProfile("Ann", True, "a@b.c")` | only integers are accepted as an age | not executed | UserProfiles.BoolAgeAccepted | UserProfiles.ValidateAge |
| Assignment/AssignmentProject/Number1/number10.py:37-46 | `__init__` stores the preferences without the serializability check of `update_preferences`, though the scenario at lines 368-369 expects it to raise | `UserProfile("Test", 25, "test@example.com", {"complex_obj": object()})` | construction rejects preferences that cannot be encoded | not executed | UserProfiles.UnserializablePreferencesAccepted | UserProfiles.CheckProfile |
