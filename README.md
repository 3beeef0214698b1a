# Subscription analytics: a Dafny model

This project models the core of a Django subscription-management service. That core is three parts:

- the records it stores: features, subscription plans, users and user subscriptions. The model gives:
  - features, plans and subscriptions their defaults and choice sets;
  - the unique `name` columns of features and plans;
  - the string forms of features and subscriptions.
- the input validators applied at sign-up and on user updates, plus the lightweight plan listing.
- the analytics dashboard. It computes four figures from the whole population of subscriptions:
  - the total recurring revenue (cost of active subscriptions);
  - the average subscription cost (over every subscription);
  - a month-by-month revenue history over the past year;
  - the five users with the highest total subscription value.

Every part is pure, so each becomes datatypes, functions and lemmas:

- `dates.dfy` (module `Dates`): calendar dates as Python's `date` type knows them. It has `replace(year=…)`, `replace(day=1)` and `TruncMonth`.
- `models.dfy` (module `Models`): the records.
- `analytics.dfy` (module `Analytics`): the dashboard view. Each query set is a function over the sequence of rows.
- `serializers.dfy` (module `Serializers`): the validators and the plan-list projection.
- `wrappers.dfy` (module `Wrappers`): `Option` and `Result`.

Representation choices:

- Money is an exact integer number of cents. The average is a `real`.
- `today` is a parameter of the dashboard, not read from the clock.
- A date is a `(year, month, day)` triple that is a real calendar day, with years 1 to 9999. Dates are ordered lexicographically.
- An exception the view or a validator raises becomes a `Failure` of a `Result`. The database's unique-name rejection is one too.
- `Dates.ReplaceYear` returns `None` where Python's `date.replace` raises `ValueError`. The dashboard turns that `None` into its `Failure(ValueError)`.

### Where the model departs from the code as written

- **Active means `status == Active`.** The revenue filter at `subscriptions/views.py:236` is `Q(is_active=True)`. `UserSubscription` (`subscriptions/models.py:52-77`) has no `is_active` field: the three-valued `status` at `subscriptions/models.py:73-77` replaced it.
  - **As written, the view fails on every request.** Django cannot resolve the filter, so the `aggregate` call at `subscriptions/views.py:232` raises `FieldError` and no report is ever returned.
  - **The model replaces the filter.** It models the evidently intended behaviour: "active" is `status == Active` everywhere, and `Analytics.AnalyticsDashboard` fails only where `today.replace(year=…)` raises.

### What the model keeps from the code

- **Top users can tie.** The ranking is non-increasing, not strictly decreasing. Equal totals can occur, and the query has no secondary sort key. The model keeps tied users in user-table order. Every property about ranking is stated so that it holds whatever the order among ties.
- **The first month can be partial.** The history window is `[today − 1 year, first day of this month)`. So it starts on today's day of the month one year back, and its first month may hold only part of that month.
- **Rules the code does not have are not modelled.** These are: status-transition rules, `price ≥ 0`, `plan_cost ≥ 0` and `start_date ≤ end_date`.

## Model

| member | source | states |
|---|---|---|
| `Dates.ReplaceYear` | subscriptions/views.py:229 | `date.replace(year=y)` keeps month and day and sets the year. It fails exactly when `y` is outside 1..9999, or when the date is 29 February and `y` is a common year |
| `Dates.PreviousYearFails` | subscriptions/views.py:229 | going back one year from `today` fails exactly when today is in year 1 or is 29 February. A leap year is never followed by a leap year |
| `Dates.FirstOfMonth` | subscriptions/views.py:230 | `replace(day=1)` / `TruncMonth`: the result is in the same month, on day 1, and no day of that month comes before it |
| `Models.ParseStatus` | subscriptions/models.py:55-58 | a stored status string is one of `active`, `cancelled`, `suspended`. Parsing gives the status whose value it is, and any other string is rejected |
| `Models.ParseBillingCycle` | subscriptions/models.py:29-31 | a stored billing cycle string is `monthly` or `yearly`. Parsing gives the cycle whose value it is, and any other string is rejected |
| `Models.ChoiceValuesInjective` | subscriptions/models.py:55-58 | distinct statuses are stored as distinct strings, and so are distinct billing cycles |
| `Models.NewFeature` | subscriptions/models.py:15-20 | a new feature keeps the given name and description. It is active unless told otherwise |
| `Models.NewPlan` | subscriptions/models.py:29-46 | a new plan keeps the given fields. An omitted billing cycle is monthly, and an omitted active flag is true |
| `Models.NewSubscription` | subscriptions/models.py:60-77 | a new subscription keeps its own `plan_cost`, its required start date and its optional end date. An omitted status is `Active` |
| `Models.InsertUnique` | subscriptions/models.py:18 | inserting into a table with a unique `name` column fails with a duplicate-name error exactly when the name is already in the table. Otherwise it appends the row and keeps names unique. `Models.InsertFeature` applies it to features, and `Models.InsertPlan` to plans (`subscriptions/models.py:33`) |
| `Models.SetPlanPrice` | subscriptions/models.py:34 | changing a plan's price rewrites only that plan's price. Every other field and plan is unchanged, and so are the names |
| `Models.UpdatePlanPrice` | subscriptions/models.py:34 | saving a plan with a new price rewrites only that plan's price in the plan table. The subscription table is left exactly as it was |
| `Models.PlanCostSnapshot` | subscriptions/models.py:70 | after a plan's price changes, every subscription to it is the same row as before, so its `plan_cost` is unchanged. One billed at the old price no longer agrees with the plan once the price differs |
| `Analytics.PriceChangeKeepsDashboard` | subscriptions/views.py:232-266 | changing a plan's price leaves the whole dashboard unchanged, since every figure reads the subscriptions' own `plan_cost` |
| `Models.FeatureStrIdentifies` | subscriptions/models.py:22-23 | `str(feature)` is its name, so in a table with unique names distinct rows print differently |
| `Models.SubscriptionStr` | subscriptions/models.py:79-80 | the string is the username, `" - "`, the plan name, `" - "`, then the stored status value, with lengths adding up |
| `Models.SubscriptionStrShowsStatus` | subscriptions/models.py:79-80 | for the same user and plan, two subscriptions print alike exactly when their statuses agree |
| `Analytics.RecurringRevenueIsActiveSum` | subscriptions/views.py:233-240 | the total recurring revenue is the sum of `plan_cost` over a selection holding each active row once per occurrence and no other row |
| `Analytics.RecurringRevenueNoneActive` | subscriptions/views.py:233-240 | with no active subscription the revenue is 0, not null |
| `Analytics.RecurringRevenueConcat` | subscriptions/views.py:232-240 | the revenue of two populations together is the sum of their revenues |
| `Analytics.RecurringRevenueAdd` | subscriptions/views.py:232-240 | one more subscription adds its cost if it is active and nothing otherwise |
| `Analytics.RecurringRevenueIgnoresInactive` | subscriptions/views.py:234-236 | inserting cancelled or suspended subscriptions anywhere leaves the revenue unchanged |
| `Analytics.RecurringRevenuePermutation` | subscriptions/views.py:232-240 | the revenue does not depend on the order of the rows |
| `Analytics.AverageSubscriptionCost` | subscriptions/views.py:241-245 | the average times the number of subscriptions is the sum of all costs, with no status filter. It is 0 on an empty population |
| `Analytics.AverageWithinBounds` | subscriptions/views.py:241-245 | on a non-empty population, the average lies between any lower and upper bound of the costs |
| `Analytics.AverageIgnoresStatus` | subscriptions/views.py:242 | two populations with the same costs, row by row, have the same average whatever their statuses |
| `Analytics.AddToMonth` | subscriptions/views.py:254-257 | adding a cost to a month's bucket changes the set of months exactly by that month |
| `Analytics.MonthlyRevenueHistory` | subscriptions/views.py:251-258 | the buckets are strictly ascending by month, and each key is a first day of month. A month has a bucket iff some subscription passing `from <= start_date < until` started in it |
| `Analytics.HistoryRevenueByMonth` | subscriptions/views.py:254-256 | for every month, the revenue the history records is the sum of `plan_cost` over the in-window subscriptions started in that month |
| `Analytics.MonthlyBucketTotals` | subscriptions/views.py:256 | each bucket's `total_revenue` is the sum of `plan_cost` of the in-window subscriptions started in its month |
| `Analytics.HistoryTotalIsWindowRevenue` | subscriptions/views.py:251-258 | the bucket totals add up to the sum of `plan_cost` over the in-window subscriptions |
| `Analytics.HistoryMonthsInWindow` | subscriptions/views.py:253-254 | every bucket month is no earlier than the month of `from` and strictly before `until` |
| `Analytics.HistoryIgnoresOutside` | subscriptions/views.py:253 | subscriptions outside the window, inserted anywhere among the rows, leave the history unchanged |
| `Analytics.CurrentMonthExcluded` | subscriptions/views.py:228-253 | a subscription started in the current month, inserted anywhere among the rows, never changes the history, whatever its cost |
| `Analytics.DashboardHistoryWindow` | subscriptions/views.py:228-258 | a dashboard's history has at most 12 buckets. All of them fall in the twelve months before the current one, and none is for the current month |
| `Analytics.AnnotatedUsers` | subscriptions/views.py:261-263 | the annotated rows are exactly the users with at least one subscription, each with these fields: id, username, email, and the total `plan_cost` over all their subscriptions. When user ids are unique, no two rows share an id, so each such user has exactly one row |
| `Analytics.SortByValueDesc` | subscriptions/views.py:264 | the sorted ranking is a permutation of its input and is non-increasing by total |
| `Analytics.TopUsers` | subscriptions/views.py:265 | the ranking lists at most five rows |
| `Analytics.TopUsersRows` | subscriptions/views.py:260-265 | listed rows are non-increasing by total. Each belongs to a user of the table who has at least one subscription, and each carries that user's total over every status |
| `Analytics.TopUsersComplete` | subscriptions/views.py:264-265 | if a user with subscriptions is not listed, five rows are listed and that user's total is at most the fifth total |
| `Analytics.TopUsersDistinct` | subscriptions/views.py:260-265 | in a user table keyed by id, the listed rows have distinct ids, so the ranking names each user at most once and five listed rows are five different users |
| `Analytics.AnalyticsDashboard` | subscriptions/views.py:227-275 | with the revenue filter read as `status == Active` (see above), the view fails exactly on 29 February and in year 1. Otherwise it reports the four figures over the window `[today − 1 year, first of this month)` |
| `Analytics.RevenueExample` | subscriptions/views.py:232-245 | three subscriptions cost 100 (active), 50 (cancelled) and 30 (suspended). The revenue is 100 and the average is 60 |
| `Analytics.TopUsersExample` | subscriptions/views.py:260-265 | a user totalling 500 and one totalling 700 are ranked 700 first, whatever the statuses |
| `Serializers.ValidateSignUp` | subscriptions/serializers.py:33-38 | sign-up validation fails with an error under `password` iff the two passwords differ. Otherwise it returns the data unchanged |
| `Serializers.EmailInUse` | subscriptions/serializers.py:66-69 | the existence query holds iff some user has that email and is not the excluded primary key |
| `Serializers.ValidateSignUpEmail` | subscriptions/serializers.py:44-49 | sign-up email validation fails iff some existing user holds the email. Otherwise it returns the value unchanged |
| `Serializers.ValidateUserEmail` | subscriptions/serializers.py:65-73 | user email validation fails iff a user holds the email who is not the instance being updated (by primary key). Otherwise it returns the value unchanged |
| `Serializers.UserEmailOnCreate` | subscriptions/serializers.py:65-73 | without an instance, user email validation coincides with the sign-up rule |
| `Serializers.UserKeepsOwnEmail` | subscriptions/serializers.py:66-72 | a user keeping an email that no other user holds passes |
| `Serializers.UserEmailClash` | subscriptions/serializers.py:66-72 | an email held by any other user is rejected, on create and on update |
| `Serializers.PlanListItem` | subscriptions/serializers.py:111-116 | a listed plan has exactly the fields `id`, `name`, `price`, `billing_cycle`, in that order, with the plan's values |
| `Serializers.PlanListItemFields` | subscriptions/serializers.py:111-116 | two plans are listed alike iff they agree on id, name, price and billing cycle. Nothing else shows, and none of those four is lost |
| `Serializers.PlanList` | subscriptions/serializers.py:111-116 | listing a plan table gives one item per plan, in order |

## Left out

- Floating point: `price`, `plan_cost` and the `Coalesce(…, FloatField())` casts are floats in the source. The model uses exact cents and an exact real average, so rounding drift is not modelled.
- `SubscriptionPlan.__str__` (subscriptions/models.py:48-49): its output depends on how Python renders a float price.
- The clock: `datetime.now()` (subscriptions/views.py:228) is replaced by the `today` parameter and not modelled.
- HTTP, response rendering and the database: query sets are sequences of rows, and a unique-column violation is a `DuplicateName` result.
- Only inserts into features and plans are checked for name uniqueness. Renaming an existing row is not modelled. `max_length` limits on names are not modelled either.
- `Analytics.TopUsers`: tied totals are kept in user-table order. The database's order among ties is unspecified, and the model does not capture it. The ranking properties hold for any order among ties.
- Analytics: subscriptions whose user is not in the user table count toward revenue, the average and the history. They never appear in the ranking. Foreign-key integrity is not modelled.
- `validate_password` (subscriptions/serializers.py:40-42): it delegates to the framework's password-strength validators, which are outside this model, and the `EmailValidator` format check is left out too.
- `SignUpInputSerializer.create` (subscriptions/serializers.py:27-31): it refers to a `Meta` class that the serializer does not define, and it writes to the database.
- The serializer projections of subscriptions (subscriptions/serializers.py:119-170): they list an `is_active` field the record no longer has. The feature and detailed-plan serializers are also left out: they are plain framework field lists.
- Login, logout, tokens, permissions, search filters and the other view sets (subscriptions/views.py:45-211): these are framework plumbing.
- The URL routing, the admin configuration and the synthetic-data generator (random data and console output): none is part of this model.
- Timestamps (`created_at`, `updated_at`): Django sets them from the application clock when a row is saved.
