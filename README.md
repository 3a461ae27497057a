# django-subscription: date advancement and PayPal notification handlers

This project models two parts of the `subscription` Django application.

* `extend_date_by` (subscription/utils.py) advances a date by a number of days
  (`D`), weeks (`W`), months (`M`) or years (`Y`). The model is built on Python's
  proleptic Gregorian calendar, years 1 to 9999 (Calendar.dfy), and returns
  either the new date or the exception the Python code raises (DateUtils.dfy).
  `datetime.date` reads the year as a C `int`, so `M` and `Y` steps to a year
  outside that range raise OverflowError rather than ValueError.
* The PayPal notification handlers (subscription/models.py). Each handler:
  * resolves the plan (`Subscription`) and the user named in the
    notification, with `None` for a missing row;
  * may add the user to, or remove them from, the plan's group;
  * saves exactly one `Transaction` ledger row;
  * sends exactly one signal.

  `User.get_subscription` returns the first plan whose group the user belongs
  to and memoises it on the user object (Subscriptions.dfy).

The handlers are modelled twice:
* The pure function `Subscriptions.Step` gives their effect on a `Db` value
  (catalog, users' groups, ledger, sent signals). It goes through the decision
  table `Subscriptions.React`.
* The class `Subscriptions.Store` holds the same state as mutable fields. Its
  six handler methods follow the Python branch by branch. Each ensures that
  the new state is `Step` of the old state.

Notes on the code:
* Unit `Y` does not clamp 29 February. `datetime.date` raises `ValueError`
  for that day in a common year, modelled as `Err(DayOutOfRange)`.
* A resolved cancel or end of term removes the group at once; models.py has no
  per-user enrollment record and no amount check.

## Model

| member | source | states |
|---|---|---|
| Calendar.DaysInMonth | subscription/utils.py:57 | month length is 28..31, and 29 exactly for February of a leap year |
| Calendar.Ordinal | subscription/utils.py:48 | a date's day number lies within its own year's span of day numbers |
| Calendar.FromOrdinal | subscription/utils.py:48 | gives a valid date whose day number is the one asked for |
| Calendar.FromOrdinalOrdinal | subscription/utils.py:48 | date to day number and back is the identity, within Python's range |
| Calendar.OrdinalOrdered | subscription/utils.py:48 | a later calendar date has a larger day number |
| Calendar.Weekday | subscription/tests.py:19 | `date.weekday()`: Monday = 0, a value in 0..6 |
| Calendar.WeekdayEpoch | subscription/tests.py:19 | 1 January of year 1 is a Monday |
| Calendar.WeekdayNextDay | subscription/tests.py:19 | each next day's weekday is the previous one's plus one, modulo 7 |
| Calendar.MonthRange | subscription/utils.py:57 | `calendar.monthrange(y, m)`: a weekday 0..6 for the 1st and a month length 28..31 |
| Calendar.NextDayOrdinal | subscription/utils.py:47-48 | the calendar's next day (rolling over month and year) has the next day number |
| DateUtils.ExtendDateBy | subscription/utils.py:4-64 | any date it returns is a valid calendar date |
| DateUtils.AddDays | subscription/utils.py:48 | `date + timedelta(days)` succeeds exactly when the day number stays in 1..3652059, moves the day number by exactly `days`, and otherwise raises OverflowError |
| DateUtils.MakeDate | subscription/utils.py:63 | `datetime.date(y, m, d)` succeeds exactly for a year in 1..9999 and a day within the month, giving that date; otherwise a year outside a C `int` is OverflowError, another bad year ValueError, checked before the day (ValueError) |
| DateUtils.ExtendByDays | subscription/utils.py:47-48 | unit D gives the date with day number exactly `amount` more; it fails (overflow) exactly when that is outside years 1..9999 |
| DateUtils.OneDayIsNextDay | subscription/utils.py:47-48 | one day later is the calendar's next day |
| DateUtils.DaysCompose | subscription/utils.py:47-48 | a days then b days equals a+b days |
| DateUtils.ExtendByWeeks | subscription/utils.py:49-50 | unit W is exactly 7*amount days |
| DateUtils.ExtendByMonths | subscription/utils.py:51-60 | with t = month-1+amount: month = t mod 12 + 1, year = year + t div 12, day = min(day, length of new month); fails only for a year outside 1..9999, with OverflowError when it does not fit a C `int` (`calendar.monthrange` builds a date) and ValueError otherwise |
| DateUtils.MonthKeepsFittingDay | subscription/utils.py:57-60 | the day is unchanged when the target month has it |
| DateUtils.MonthlyStep | subscription/tests.py:16-29 | one month from any valid day outside December 9999 goes to the next month (December to January of the next year) without error |
| DateUtils.ExtendByYears | subscription/utils.py:61-63 | unit Y keeps month and day and adds amount to the year; fails exactly for a year out of range (OverflowError past a C `int`, else ValueError) or a day the target month lacks (no clamping) |
| DateUtils.HugeYearsExample | subscription/utils.py:51-63 | 2007-01-01 + 2147483647 Y and + 12*2147483647 M overflow; + 2147481640 Y and - 12*2007 M are year errors |
| DateUtils.LeapDayByYears | subscription/utils.py:57-63 | 2012-02-29 + 1 Y is a day error, + 4 Y is 2016-02-29; month steps from a month end clamp to Feb 29 / Feb 28 |
| DateUtils.UnknownUnitRejected | subscription/utils.py:64 | the result is the unknown-unit error exactly when the unit is not D, W, M or Y |
| DateUtils.FiveYearsExample | subscription/utils.py:10-11 | 2007-04-03 + 5 Y = 2012-04-03 |
| DateUtils.FiveMonthsExample | subscription/utils.py:13-14 | 2007-04-03 + 5 M = 2007-09-03 |
| DateUtils.FiveMonthsToDecemberExample | subscription/utils.py:15-16 | 2007-07-03 + 5 M = 2007-12-03 |
| DateUtils.FiveMonthsToJanuaryExample | subscription/utils.py:17-18 | 2007-08-03 + 5 M = 2008-01-03 |
| DateUtils.FiveMonthsToMarchExample | subscription/utils.py:19-20 | 2007-10-03 + 5 M = 2008-03-03 |
| DateUtils.OneWeekExample | subscription/utils.py:22-23 | 2007-10-03 + 1 W = 2007-10-10 |
| DateUtils.TwoWeeksExample | subscription/utils.py:24-25 | 2007-10-03 + 2 W = 2007-10-17 |
| DateUtils.FiveWeeksExample | subscription/utils.py:26-27 | 2007-10-03 + 5 W = 2007-11-07 |
| DateUtils.FiveWeeksToJanuaryExample | subscription/utils.py:28-29 | 2007-12-03 + 5 W = 2008-01-07 |
| DateUtils.TwentyNineDaysExample | subscription/utils.py:31-32 | 2007-10-03 + 29 D = 2007-11-01 |
| DateUtils.TwentyNineDaysLaterExample | subscription/utils.py:33-34 | 2007-10-07 + 29 D = 2007-11-05 |
| DateUtils.NinetyNineDaysExample | subscription/utils.py:35-36 | 2007-10-07 + 99 D = 2008-01-14 |
| DateUtils.FiveDaysExample | subscription/utils.py:37-38 | 2007-12-03 + 5 D = 2007-12-08 |
| DateUtils.FiveDaysToJanuaryExample | subscription/utils.py:39-40 | 2007-12-30 + 5 D = 2008-01-04 |
| DateUtils.UnknownUnitExample | subscription/utils.py:42-45 | unit Q raises the unknown-unit error |
| DateUtils.MonthTestLastDayAsWritten | subscription/tests.py:19 | the test loop as written ends at the weekday of the 1st, at most 6 |
| DateUtils.MonthTestLastDay | subscription/tests.py:19 | the intended loop end is the month's last valid day |
| DateUtils.MonthTestAsWrittenMissesDays | subscription/tests.py:19 | as written the loop of every month stops below the month's last day |
| DateUtils.MonthTestAsWrittenSkipsAugust2011 | subscription/tests.py:19 | as written the loop visits no day of August 2011 |
| DateUtils.MonthTestPasses | subscription/tests.py:16-29 | with the intended bound, every day of every month of 2011 and 2012 passes the test |
| Subscriptions.FindPlan | subscription/models.py:67-68 | the plan found has the id and is in the catalog; None only when no plan has the id |
| Subscriptions.FindPlanUnique | subscription/models.py:67 | with unique ids, looking up a catalog plan's id returns that plan |
| Subscriptions.GroupsOneToOne | subscription/models.py:31 | two distinct plans never share a group |
| Subscriptions.PaymentArgs | subscription/models.py:66-73 | plan and user resolve independently, each None exactly when its id has no row; never fails |
| Subscriptions.StepKeepsResolution | subscription/models.py:66-73 | no handler call changes what a notification resolves to |
| Subscriptions.ExpectedEntries | subscription/models.py:75-161 | helper for `React`'s "unexpected" iff: of the eleven ledger event strings the handlers write, exactly the four of the unexpected branches start with "unexpected " |
| Subscriptions.React | subscription/models.py:75-161 | grant exactly for resolved signup or resolved one-time payment; revoke exactly for resolved cancel/eot; a specific signal exactly when resolved and not flagged/modify; an "unexpected" entry exactly when unresolved and not flagged/modify |
| Subscriptions.Step | subscription/models.py:75-161 | one call: exactly one ledger row (plan, user, notification, mc_gross) and one signal appended, earlier ones untouched, catalog untouched, membership changed at most for (resolved user, resolved plan's group) |
| Subscriptions.ReplayAppendsOnly | subscription/models.py:75-161 | over any run of calls, ledger and signals grow by exactly one per call and earlier entries never change |
| Subscriptions.RetryKeepsMembership | subscription/models.py:105-153 | a duplicated notification leaves membership as the first left it and appends an identical second ledger row |
| Subscriptions.OtherPlansUnaffected | subscription/models.py:31 | a call never changes anyone's access to a plan other than the resolved one |
| Subscriptions.PaymentWasSuccessfulEffect | subscription/models.py:75-94 | one-time plan: group added, "one-time payment", signed_up; recurring: no change, "subscription payment", paid; unresolved: no change, "unexpected payment", event unexpected_payment |
| Subscriptions.PaymentWasFlaggedEffect | subscription/models.py:97-102 | whatever resolves: no change, "payment flagged", event flagged |
| Subscriptions.SubscriptionSignupEffect | subscription/models.py:105-118 | resolved: group added, "subscribed", subscribed; unresolved: no change, "unexpected subscription", event unexpected_subscription |
| Subscriptions.SubscriptionCancelEffect | subscription/models.py:122-136 | resolved: group removed, "cancel subscription", unsubscribed(cancel); unresolved: no change, "unexpected cancel", event unexpected_cancel |
| Subscriptions.SubscriptionEotEffect | subscription/models.py:139-153 | resolved: group removed, "expired subscription", unsubscribed(eot); unresolved: no change, "unexpected expiration", event unexpected_expiration |
| Subscriptions.SubscriptionModifyEffect | subscription/models.py:156-161 | whatever resolves: no change, "modify subscription", event subscription_modify |
| Subscriptions.FirstMatch | subscription/models.py:57 | index of the first catalog plan whose group the user is in, or the catalog's length |
| Subscriptions.FirstSubscription | subscription/models.py:57-59 | the plan returned is in the catalog and its group is the user's; None exactly when no plan's group is |
| Subscriptions.FirstSubscriptionIsLeast | subscription/models.py:34 | in the table's ordering, no plan of the user's sorts before the one returned (cheapest, then longest period) |
| Subscriptions.SignupGivesSubscription | subscription/models.py:105-113 | after a resolved signup a fresh lookup of the user's subscription finds one not sorting after the plan signed up for |
| Subscriptions.CancelEndsSubscription | subscription/models.py:122-148 | after a resolved cancel or end of term a fresh lookup of the user's subscription does not return the cancelled plan |
| Subscriptions.Store.SaveTransaction | subscription/models.py:81-83 | `Transaction(...).save()` appends exactly that row |
| Subscriptions.Store.Send | subscription/models.py:84 | sending a signal appends exactly that signal |
| Subscriptions.Store.AddGroup | subscription/models.py:79-80 | the user's groups become old groups plus the plan's group, nothing else changes |
| Subscriptions.Store.RemoveGroup | subscription/models.py:125-126 | the user's groups become old groups minus the plan's group, nothing else changes |
| Subscriptions.Store.HandlePaymentWasSuccessful | subscription/models.py:75-94 | new state is `Step` of the old for a successful payment; catalog invariant kept |
| Subscriptions.Store.HandlePaymentWasFlagged | subscription/models.py:97-102 | new state is `Step` of the old for a flagged payment; cannot touch membership |
| Subscriptions.Store.HandleSubscriptionSignup | subscription/models.py:105-118 | new state is `Step` of the old for a signup |
| Subscriptions.Store.HandleSubscriptionCancel | subscription/models.py:122-136 | new state is `Step` of the old for a cancel |
| Subscriptions.Store.HandleSubscriptionEot | subscription/models.py:139-153 | new state is `Step` of the old for an end of term |
| Subscriptions.Store.HandleSubscriptionModify | subscription/models.py:156-161 | new state is `Step` of the old for a modify; cannot touch membership |
| Subscriptions.CacheOutlivesCancel | subscription/models.py:55-60 | a subscription looked up before a cancel is returned again after it, although the cancel removed the plan's group |
| Subscriptions.User.GetSubscription | subscription/models.py:55-60 | first call returns the first matching plan and caches it; later calls return the cached value unchanged, even after the groups changed |

## Left out

- Persistence is not modelled: the Django ORM, `u.save()`, and the `timestamp` (`auto_now_add`) and `comment` fields of `Transaction`. The ledger is a sequence in save order. Its display order (`-timestamp`) is that sequence reversed when timestamps differ; rows with equal timestamps come in an order the database chooses.
- Signal dispatch, receivers and the `connect` calls are left out. Sent signals are entries of an event log, and each handler is its own method.
- Ids are integers. Django raises `ValueError` (not `DoesNotExist`) for a non-numeric `item_number` or `custom`; that path is not modelled.
- `mc_gross` (nullable) and `price` are integers (cents) and are never computed with. The `DecimalField(max_digits=4)` limits on `amount` and `price` are not modelled.
- NULL `recurrence_period` sorts below every number, as in SQLite and MySQL. PostgreSQL sorts NULLs the other way, which would change only the order among equally priced plans.
- `get_pricing_display` is left out: display formatting.
- views.py, admin.py, providers.py and urls.py are left out: web, admin and provider plumbing.
- `raise "Unknown unit."` is a string exception, which is itself a `TypeError` in Python 2.6 and later. Either way the call raises, modelled as `Err(UnknownUnit)`.
- `timedelta` limits its magnitude to 999999999 days. Any date past that limit is also outside years 1..9999, so both cases are the same `Err(Overflow)`.
- `calendar.monthrange` also returns the weekday of the 1st. The month branch uses only the month length; `Calendar.MonthRange` models both parts.
- `Calendar.FromOrdinal` is defined as the unique date with a given day number. It does not follow CPython's internal algorithm.

## Findings

| source | as written | input that shows it | evidently intended | confidence | as-written member | corrected member |
|---|---|---|---|---|---|---|
| subscription/tests.py:19 | the day loop runs to `calendar.monthrange(year, month)[0]`, the weekday of the 1st | August 2011 starts on a Monday, so no day of it is tested; no month is tested past day 6, so clamping at a month's end never is | loop to `calendar.monthrange(year, month)[1]`, the month's length | high; not executed | DateUtils.MonthTestAsWrittenSkipsAugust2011 | DateUtils.MonthTestPasses |
