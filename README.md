# careerlens in Dafny

careerlens scores a user's career profile against the job market and sells an
AI-written career report, either once per paid order or once a day to subscribers.
Subscribers also get a daily digest e-mail.

This project models the deterministic core of careerlens and proves properties of it:

- **Synthetic analysis.** The generator that turns the career form into an analysis, with its skill split, experience parse, base score, jitter and clamp.
- **Score connectors.** GitHub, StackExchange, npm and PyPI. Each turns a count into a 0-100 score on a log scale. The network replies are given as inputs.
- **Score classifiers.** The Strong/Stable/Weak classifiers and gap tiers of the score bar, the report page, the preview page and the digest.
- **Report request.** The signals the report request derives from an analysis, the career-path split and the trend deltas.
- **Payment and subscription lifecycle.** Checkout creation, the payment webhook, the order-status poll, the subscription check and the report endpoint's payment gate. These are methods on a `Database` class whose map fields stand for the tables. The class keeps an invariant over ghost report counters: a one-time order has paid for at most one report and is marked used once it has, and a subscriber has had at most one report per UTC day, never more than daily_usage has counted.
- **Daily digest worker.** HTML escaping, top-3 gap selection, RSS item parsing, and the send loop that counts successes and failures and writes one log row per subscriber.

`Math.log10` is not axiomatised. `normalize(c)` with divisor D is computed exactly in integers:
`round(min(100·log10(c)/D, 100)) >= k` holds iff `10^((2k-1)·D) <= c^200`, and the score is the largest such `k <= 100`.
`Math.random()` draws are an input sequence of reals in [0, 1).
Network, database and mail calls are replaced by their outcomes, passed in as parameters.

## Model

| member | source | states |
|---|---|---|
| JsText.SplitSkills | src/store.ts:35 | every skill name is a non-empty trimmed word without a comma |
| JsText.SplitSkillsAppend | src/store.ts:35 | the skill list of `a,b` is the list of `a` followed by the list of `b` (input order kept) |
| JsText.SplitSkillsOne | src/store.ts:35 | a comma-free text gives its trimmed self, or nothing when it is blank |
| JsText.SplitJoin | src/store.ts:35 | joining the pieces of `split(sep)` with `sep` gives back the text |
| JsText.Trim | src/store.ts:35 | the result is a slice of the input with only white space removed on either side, and starts and ends with non-space |
| JsText.ParseIntOrZero | src/store.ts:36 | `parseInt(x) \|\| 0`: 0 when nothing parses, otherwise the parsed value |
| JsText.NonNumericIsZero | src/store.ts:36 | text that does not start (after white space) with a sign or digit yields 0 years |
| JsText.ParseDecimal | src/store.ts:36 | parsing the decimal text of n gives n |
| JsText.ParseIntText | functions/api/report.ts:577 | the status number printed into an error message reads back as that number |
| JsText.ToLower | src/api/stackexchange.ts:33 | no capital A-Z remains: each becomes its small letter at the same place, and every other character is kept (ASCII letters only, see Left out) |
| JsText.ToLowerIdempotent | src/api/stackexchange.ts:33 | lower-casing twice is lower-casing once, and text without capitals is kept |
| JsMath.RoundDiv | src/api/github.ts:60 | `Math.round(sum/n)` is the integer r with `r - 1/2 <= sum/n < r + 1/2` |
| JsMath.RoundMeanWithin | src/api/github.ts:58-61 | the rounded mean of values in [lo, hi] lies in [lo, hi] |
| JsMath.Clamp | src/store.ts:42 | the clamped value lies in [lo, hi] and equals x when x is already inside |
| LogScale.Normalize | src/api/github.ts:16-21 | the score is in [0, 100] and is 0 for a count <= 0 |
| LogScale.NormalizeIsRounding | src/api/github.ts:19-20 | the score is the largest k whose half-up threshold the count reaches: it is the rounded, clamped 100·log10(c)/D |
| LogScale.NormalizeMonotone | src/api/github.ts:19-20 | a larger count never scores lower |
| LogScale.NormalizeOne | src/api/github.ts:18 | a count of 1 scores 0 (log10(1) = 0) |
| LogScale.NormalizeSaturates | src/api/github.ts:18-20 | a count of at least 10^D scores 100 |
| LogScale.NormalizePowerOfTen | src/api/github.ts:19-20 | 10^m scores min(100, round(100·m/D)) |
| GitHub.Normalize | src/api/github.ts:16-21 | divisor 6: score in [0, 100], 0 for counts <= 0 |
| GitHub.NormalizeCountOne | src/api/github.ts:18 | one repository scores 0 |
| GitHub.NormalizeMillion | src/api/github.ts:15-20 | a million repositories or more score 100 |
| GitHub.TopStars | src/api/github.ts:43 | the first item's stars; 0 with no items or when the first item has no star count |
| GitHub.TechTrend | src/api/github.ts:58-61 | 50 when there are no skills |
| GitHub.TechTrendBounded | src/api/github.ts:58-61 | the rounded mean of 0-100 scores is in [0, 100] |
| GitHub.FirstFailure | src/api/github.ts:10-11 | when some search fails, the first failing skill in list order, with every earlier search ok (the failure the model reports; see Left out) |
| GitHub.SkillsData | src/api/github.ts:41-50 | one entry per skill, in order, with the repository count and its normalized score |
| GitHub.FetchFor | src/api/github.ts:36-63 | succeeds iff every search succeeds; then the skills, the market position of the job title and the trend are as computed, all in [0, 100]; a throw carries the status of a failing skill search, or of the job-title search when every skill search is ok |
| GitHub.FetchGitHubData | src/api/github.ts:36-63 | one result per declared skill, and trend and position in [0, 100], exactly when no search fails |
| StackExchange.Normalize | src/api/stackexchange.ts:17-21 | divisor 7: score in [0, 100], 0 for counts <= 0 |
| StackExchange.NormalizeTenMillion | src/api/stackexchange.ts:16-20 | ten million questions or more score 100 |
| StackExchange.TagCount | src/api/stackexchange.ts:12 | the first item's count, 0 when the list is absent or empty |
| StackExchange.FetchTag | src/api/stackexchange.ts:7-14 | throws exactly on a non-ok response, otherwise yields the tag count |
| StackExchange.NoItemsNoDemand | src/api/stackexchange.ts:12 | a response without items gives demand score 0 |
| StackExchange.FetchStackExchangeData | src/api/stackexchange.ts:29-39 | succeeds iff every lower-cased, trimmed tag lookup succeeds; then one entry per skill, in order, keeping the original name; a throw carries the status of some failing lookup |
| Npm.Normalize | src/api/npm.ts:18-22 | divisor 9: score in [0, 100], 0 for downloads <= 0 |
| Npm.NormalizeBillion | src/api/npm.ts:17-21 | a billion downloads or more score 100 |
| Npm.Downloads | src/api/npm.ts:8-15 | a non-ok response or a missing field gives 0 downloads, not an error |
| Npm.FetchNpmData | src/api/npm.ts:30-38 | one entry per skill, in order, looked up under the lower-cased name, score in [0, 100] |
| Npm.UnknownPackageScoresZero | src/api/npm.ts:12 | a package the registry does not know scores 0 |
| PyPI.Normalize | src/api/pypi.ts:21-25 | divisor 3: score in [0, 100], 0 for counts <= 0 |
| PyPI.NormalizeThousand | src/api/pypi.ts:20-24 | a thousand releases or more score 100 |
| PyPI.ReleaseCount | src/api/pypi.ts:11-18 | the number of release keys, 0 on a non-ok response or a missing field |
| PyPI.FetchPyPIData | src/api/pypi.ts:33-41 | one entry per skill, in order, looked up under the lower-cased name, score in [0, 100] |
| PyPI.MoreReleasesNoLowerScore | src/api/pypi.ts:16 | adding a release never lowers the maturity score |
| MockAnalysis.Variance | src/store.ts:39 | every jitter draw is the floor of 20r-10, an integer in [-10, 9] |
| MockAnalysis.ExperienceYears | src/store.ts:36 | the parsed number of years, or 0 when the experience does not parse |
| MockAnalysis.BaseScore | src/store.ts:38 | the smaller of 95 and 40 + 5·years + 3·skills: at most both, and equal to one of them; at least 40 for non-negative years |
| MockAnalysis.Jittered | src/store.ts:42 | a jittered value lies in [10, 100], and within [x-10, x+9] when 20 <= x <= 90 |
| MockAnalysis.JitterSkills | src/store.ts:41-45 | one skill per name, in order, score jittered from the base and market average jittered from the clamped score, both in [10, 100] |
| MockAnalysis.GenerateMockAnalysis | src/store.ts:34-61 | overall score is the base score; max(1, #skills) skills with names in input order; the "General" placeholder with base and base+5 (<= 100) when there are none; the three signals in [10, 100]; the five fixed sources |
| MockAnalysis.DrawsOnlyMoveScores | src/store.ts:39-59 | the random draws change only scores, never the overall score, the skill names or the sources |
| MockAnalysis.NonNumericExperience | src/store.ts:36-38 | with non-numeric experience the overall score is min(40 + 3·skills, 95) |
| MockAnalysis.MidpointDrawsAreNeutral | src/store.ts:39-43 | with every draw at 0.5, each skill's score and market average are the base score clamped to [10, 100] |
| ScoreBar.GetLevel | src/components/ScoreBar.tsx:7-11 | Strong iff score >= 70, Stable iff 40 <= score < 70, Weak iff score < 40, with label, colour and background from one branch |
| ScoreBar.LevelOf | src/components/ScoreBar.tsx:7-11 | the level whose name is getLevel's label |
| ScoreBar.Pct | src/components/ScoreBar.tsx:15 | min(score/maxScore·100, 100): at most both, and equal to one of them |
| ScoreBar.PctDefault | src/components/ScoreBar.tsx:13-15 | with the default maximum the width is min(score, 100) |
| ReportPage.OverallLevel | src/pages/Report.tsx:26-30 | Strong iff >= 70, Stable iff 40-69, Weak iff < 40, colour matching |
| ReportPage.GapTier | src/pages/Report.tsx:130-132 | the three badge tiers partition the integers at 40 and 20 |
| ReportPage.GapText | src/pages/Report.tsx:133 | the gap text starts with '+' iff gap > 0 and with '-' iff gap < 0 |
| ReportPage.GapTextReadsBack | src/pages/Report.tsx:133 | the shown gap text reads back as the gap |
| ReportPage.GapRows | src/pages/Report.tsx:119-140 | no rows when the report has content; otherwise one row per skill in order, gap = marketAvg - score, tier of that gap |
| ReportPage.SkillBars | src/pages/Report.tsx:108-117 | no bars when the report has content; otherwise one bar per skill in order |
| ReportPage.BarsAndRowsAlign | src/pages/Report.tsx:112-123 | bar i and gap row i describe the same skill, and score plus gap is its market average |
| ReportPage.SourceChips | src/pages/Report.tsx:148-153 | the analysis sources in order, with "AI Strategic Analysis" appended exactly when a report exists |
| Preview.Label | src/pages/Preview.tsx:15-19 | the same three bands as getLevel |
| LevelAgreement.AllSitesAgree | src/components/ScoreBar.tsx:7-11 | the score bar, report page, preview page and digest classify every integer score the same way |
| Digest.DigestScore | scheduled-worker/index.ts:285 | a missing analysis scores 0 |
| Digest.LevelOf | scheduled-worker/index.ts:286-287 | Strong iff >= 70, Stable iff 40-69, Weak iff < 40, label and colour from one branch |
| Digest.MissingAnalysisIsWeak | scheduled-worker/index.ts:285-286 | a subscriber without an analysis is Weak |
| Digest.WithGaps | scheduled-worker/index.ts:290-291 | each skill with its gap marketAvg - score, in order |
| Digest.SortPermutes | scheduled-worker/index.ts:292 | the sort is a permutation of its input |
| Digest.SortDescending | scheduled-worker/index.ts:292 | the sort is non-increasing in gap |
| Digest.SortStable | scheduled-worker/index.ts:292 | entries with equal gaps keep their input order |
| Digest.TopGaps | scheduled-worker/index.ts:289-293 | min(3, #skills) entries, drawn from the skills, non-increasing in gap; every skill left out has a gap no larger than the last one kept |
| Digest.TopGapsStable | scheduled-worker/index.ts:290-293 | the top entries of each gap value are the first skills of that gap, in analysis order |
| Digest.TopGapsAreLargest | scheduled-worker/index.ts:289-293 | the first top gap is at least every skill's gap, and every kept gap is at least that of each skill left out |
| Digest.GapCellOf | scheduled-worker/index.ts:301-302 | red iff gap >= 20, green iff < 20, '+' iff gap > 0 |
| Digest.WarningIffLargeGap | scheduled-worker/index.ts:393 | the warning appears iff some skill has a gap of at least 20 |
| HtmlEscape.ReplaceAll | scheduled-worker/index.ts:446 | a global replacement removes its character and adds no character absent from input and replacement |
| HtmlEscape.EscHtml | scheduled-worker/index.ts:443-451 | "" for null or empty input; the output holds none of `<`, `>`, `"`, `'` |
| HtmlEscape.ChainRemovesSpecials | scheduled-worker/index.ts:446-450 | after the five replacements none of the four special characters remains |
| HtmlEscape.ChainIsEscapeEach | scheduled-worker/index.ts:445-450 | the replacement chain equals escaping each character once (no double escaping) |
| HtmlEscape.EscHtmlRoundTrip | scheduled-worker/index.ts:445-450 | decoding the five entities gives back the input |
| HtmlEscape.EscHtmlAmpersands | scheduled-worker/index.ts:446-450 | every `&` of the output starts one of the five entities |
| Rss.FindFromFirst | scheduled-worker/index.ts:191 | a search finds the leftmost occurrence, and none means there is none |
| Rss.TagTextAt | scheduled-worker/index.ts:216 | `<tag[^>]*>([^<]+)</tag>` captures non-empty text free of `<` |
| Rss.ExtractTagText | scheduled-worker/index.ts:215-219 | the trimmed capture of the first match holds no `<` |
| Rss.ItemOf | scheduled-worker/index.ts:195-203 | an item is kept iff its title (CDATA, else plain) and link (link, else guid) are present and non-empty; it carries those title and link, the source (CDATA, else plain) and the pubDate, each "" when missing |
| Rss.BlankCdataTitleDropsItem | scheduled-worker/index.ts:196 | `??` falls back only on null: a blank CDATA title drops the item |
| Rss.NextItem | scheduled-worker/index.ts:191-194 | the next `<item>...</item>` match lies after the scan position, inside the text |
| Rss.ItemsHaveTitleAndLink | scheduled-worker/index.ts:201-202 | every parsed item has a non-empty title and link |
| Rss.ScanItems | scheduled-worker/index.ts:189-207 | the while loop collects exactly the items of the document, in document order |
| Rss.ParseRssItems | scheduled-worker/index.ts:189-207 | the parsed list is the item list of the document, each with title and link |
| Rss.FetchIndustryNews | scheduled-worker/index.ts:170-187 | at most five items, the first five in order; none when the request throws or is not ok |
| Scheduler.LogOf | scheduled-worker/index.ts:104-116 | one log row: status sent iff the send succeeded, error message iff it failed |
| Scheduler.LogsOnePerSubscriber | scheduled-worker/index.ts:82-117 | exactly one log row per subscriber, in order |
| Scheduler.CountsCoverRun | scheduled-worker/index.ts:78-102 | sent + failed equals the number of attempts |
| Scheduler.StampedUsers | scheduled-worker/index.ts:88-98 | a user gets a last-sent stamp iff a send to them succeeded (or they had one); a user whose sends all failed keeps the old stamp |
| Scheduler.Mailer.Run | scheduled-worker/index.ts:53-121 | a failed subscriber query changes nothing; otherwise sent and failed are the counts, one log row is appended per subscriber and the successes are stamped |
| Scheduler.RunAccounting | scheduled-worker/index.ts:78-117 | sent + failed = number of subscribers, one log row each |
| ReportPrompt.ExperienceYears | functions/api/report.ts:271 | `parseInt(experience) \|\| 0` |
| ReportPrompt.SplitPath | functions/api/report.ts:275 | at least one piece, none containing a separator |
| ReportPrompt.SplitAtSeparator | functions/api/report.ts:275 | a separator ("→", "->" or ",") ends a piece: split(a + sep + b) = [a] + split(b) |
| ReportPrompt.CareerPathList | functions/api/report.ts:274-276 | an empty path gives [jobTitle]; otherwise trimmed non-empty pieces without separators |
| ReportPrompt.PathOfThreeSteps | functions/api/report.ts:274-276 | "a→b->c" gives [a, b, c] |
| ReportPrompt.AvgSkillScore | functions/api/report.ts:279-281 | the overall score without skills, otherwise the rounded mean score; in [0, 100] for 0-100 inputs |
| ReportPrompt.AvgSkillMarketAvg | functions/api/report.ts:283-285 | 70 without skills, otherwise the rounded mean market average; in [0, 100] for 0-100 inputs |
| ReportPrompt.LeadershipSignal | functions/api/report.ts:288-290 | min(50 + 2y, 95) with the flag, min(30 + y, 60) without, with the cap reached exactly from 23 and 30 years |
| ReportPrompt.GlobalSignal | functions/api/report.ts:293-295 | min(55 + y, 85) with the flag, min(25 + y, 50) without, with the cap reached exactly from 30 and 25 years |
| ReportPrompt.SignalsMonotone | functions/api/report.ts:287-295 | more experience never lowers either signal |
| ReportPrompt.ExperienceFlagRaises | functions/api/report.ts:287-295 | the leadership flag adds at least 20 and the global flag at least 30 points |
| ReportPrompt.DecisionSignals | functions/api/report.ts:325-332 | the six decision signals come from the trend, demand, mean skill score and the two experience signals |
| ReportPrompt.MarketAverage | functions/api/report.ts:338-345 | the fixed market averages 70, 70, 65, 60, 58 and the mean market average |
| ReportPrompt.SkillGaps | functions/api/report.ts:351-356 | one gap per skill, in order, gap = marketAvg - score |
| ReportPrompt.FindByName | functions/api/report.ts:385 | a found skill is in the list and has the name |
| ReportPrompt.FindByNameNone | functions/api/report.ts:385 | nothing is found iff no skill has the name |
| ReportPrompt.FindByNameFirst | functions/api/report.ts:385 | the first skill with the name is the one found |
| ReportPrompt.SkillDeltasAppend | functions/api/report.ts:383-388 | the deltas of a + b are those of a followed by those of b (current order) |
| ReportPrompt.SkillDeltasAllKnown | functions/api/report.ts:383-388 | when every skill was there before, one delta per skill, current - previous (first match) |
| ReportPrompt.SkillDeltasNoneKnown | functions/api/report.ts:383-388 | skills absent before give no delta |
| ReportPrompt.SkillDeltasAgainstItself | functions/api/report.ts:383-388 | an analysis compared with itself has all deltas 0 (with unique names) |
| ReportPrompt.Trend | functions/api/report.ts:373-389 | the overall, trend, demand and skill-competitiveness deltas and the skill deltas |
| ReportPrompt.TrendOfUnchanged | functions/api/report.ts:378-389 | an unchanged analysis has zero deltas |
| ReportPrompt.BuildPromptAsWritten | functions/api/report.ts:373-397 | as written, the builder throws exactly when a previous analysis is given |
| ReportPrompt.BuildPrompt | functions/api/report.ts:269-400 | the prompt data carries the trend iff there is a previous analysis, and otherwise equals the data without history |
| ReportPrompt.PromptAsWrittenThrowsOnHistory | functions/api/report.ts:391 | as written, any history throws; the corrected builder carries the trend; without history both agree |
| ReportPrompt.PromptGapsFollowSkills | functions/api/report.ts:351-356 | the prompt's gaps follow the skills one to one |
| ReportPrompt.WithDefaults | functions/api/report.ts:542-544 | an empty career path becomes the job title, empty flags become "false", other fields unchanged |
| ReportPrompt.DefaultedPath | functions/api/report.ts:542 | with no career path, the path list is the split job title, or [""] when that is empty too |
| Database.Database.UsageOf | functions/api/check-subscription.ts:70 | a missing usage row counts as 0 |
| Database.Database.SubscriptionStatusOf | functions/api/check-subscription.ts:50 | a missing profile counts as "none" |
| Checkout.ProductFor | functions/api/create-checkout.ts:42-44 | "subscription" buys the subscription product, any other type the one-time product |
| Checkout.SuccessUrl | functions/api/create-checkout.ts:51 | the URL starts with the origin |
| Checkout.QueryBeforeFragment | functions/api/create-checkout.ts:50-51 | the checkout_id query comes before the first '#', so location.search can read it |
| Checkout.PolarRequest | functions/api/create-checkout.ts:61-70 | the session request carries the product, success URL and metadata, omitting e-mail and user id when empty |
| Checkout.PendingOrder | functions/api/create-checkout.ts:96-103 | a new order is pending, unreported, with null user and e-mail when absent |
| Checkout.SessionReply | functions/api/create-checkout.ts:73-115 | the checkout URL iff Polar returned url and id and the insert did not throw; 502 "Polar API error: <status>" for a non-ok answer, 502 "Invalid Polar response" without url or id, 500 with the message (or "Failed to create checkout") when the Polar call or the insert throws; a non-ok insert still answers the URL |
| Checkout.CreateCheckout | functions/api/create-checkout.ts:20-117 | 500 "Server configuration error", 400 "Invalid request body", 400 "Missing required fields" and 500 "Product not configured", each before any Polar request; otherwise the request sent carries the product for the payment type and the reply is the session reply; a pending row is added only with a URL reply, for a new id whose insert was accepted; the other tables and the invariant kept |
| Webhook.RawSecret | functions/api/polar-webhook.ts:19-21 | a "whsec_" prefix is stripped, any other secret is kept |
| Webhook.SignatureValue | functions/api/polar-webhook.ts:43 | a "v1," prefix is stripped, any other candidate is kept |
| Webhook.VerifyWebhookSignature | functions/api/polar-webhook.ts:9-51 | valid iff some space-separated candidate, minus "v1,", equals the computed signature; false when computing it fails |
| Webhook.AcceptsFirstCandidate | functions/api/polar-webhook.ts:41-45 | a header whose first candidate is "v1," + the signature is accepted |
| Webhook.AcceptedAfterOthers | functions/api/polar-webhook.ts:41-45 | further candidates in front do not stop a match |
| Webhook.Coalesce | functions/api/polar-webhook.ts:104-105 | `a ?? b` |
| Webhook.PatchProfile | functions/api/polar-webhook.ts:137-144 | a PATCH touches only an existing profile row |
| Webhook.ApplyEvent | functions/api/polar-webhook.ts:101-188 | order.paid marks the checkout's order succeeded with its order id; subscription.created upserts an active subscription and activates the profile; subscription.updated sets status (default active) and period end; subscription.revoked revokes and sets the profile to none; missing ids change nothing |
| Webhook.UnknownEventChangesNothing | functions/api/polar-webhook.ts:101-188 | an unrecognised event type changes no table |
| Webhook.EventsKeepReportMarks | functions/api/polar-webhook.ts:102-116 | no event adds or removes orders or touches their report mark |
| Webhook.ApplyEventIdempotent | functions/api/polar-webhook.ts:101-186 | delivering the same event twice has the effect of delivering it once |
| Webhook.HandleWebhook | functions/api/polar-webhook.ts:53-193 | 500 unconfigured, 400 missing headers, 401 bad signature, 400 bad JSON, all without change; otherwise the event is applied and received is returned; the invariant kept |
| CheckOrder.Resolve | functions/api/check-order.ts:39-93 | a succeeded row answers succeeded with its key and type, a failed row failed; otherwise a non-ok Polar answer gives the row status or pending, Polar succeeded gives succeeded for a known row and pending without, failed/expired give failed, anything else (missing = open) pending |
| CheckOrder.SucceededOnlyWhenPaid | functions/api/check-order.ts:39-86 | the page hears succeeded iff the row is succeeded or Polar reports a known, unsettled checkout paid |
| CheckOrder.FailedRowStaysFailed | functions/api/check-order.ts:47-49 | a failed row is answered failed whatever Polar says |
| CheckOrder.CheckOrder | functions/api/check-order.ts:10-94 | 500 unconfigured, 400 without checkout_id; otherwise the reply resolves the row and Polar, and the row is set to succeeded exactly when Polar reports a known unsettled checkout paid; the invariant kept |
| CheckOrder.NeverDowngrades | functions/api/check-order.ts:67-80 | the only write never touches a settled or failed row and keeps the report mark |
| CheckSubscription.NextUtcMidnight | functions/api/check-subscription.ts:73-76 | strictly after now, at most one day later, on a day boundary |
| CheckSubscription.ResetStartsNextDay | functions/api/check-subscription.ts:73-76 | the reset time is the first instant of the next usage day, and all of [now, reset) is today |
| CheckSubscription.CheckSubscription | functions/api/check-subscription.ts:7-83 | 500 / 401 / 401 on the error paths; active iff the profile status is "active"; inactive gives no limit and no reset; active gives limitReached iff today's count >= 1 and reset at the next midnight |
| CheckSubscription.CheckSubscriptionIn | functions/api/check-subscription.ts:49-71 | read from the tables: limit reached iff today's usage row is at least 1 |
| ReportApi.OrderGate | functions/api/report.ts:409-432 | a one-time order passes iff it exists, is succeeded and has no report yet; every rejection is 402 |
| ReportApi.MarkedOrderRejected | functions/api/report.ts:428-430 | a paid order that has been marked is rejected as already used |
| ReportApi.LimitAgreesWithGate | functions/api/check-subscription.ts:70-71 | the subscription check reports the limit as reached exactly when the report gate would reject the next request of the day |
| ReportApi.Gate | functions/api/report.ts:403-495 | one_time: the order gate on the order's row; subscription: 401 "Missing authorization token", 401 "Invalid token", 402 "No active subscription", 500 "Usage tracking failed", 402 "Daily report limit reached (1 per day)" when the incremented count exceeds 1; any other type 400 "Unknown payment type"; passes iff a paid, unused order or an active subscriber's first counted request of the day |
| ReportApi.VerifyPayment | functions/api/report.ts:403-495 | the decision is the gate on the tables as they were; daily_usage goes up by one exactly when the increment call is made and succeeds, also before the limit's 402; other tables unchanged; a passed subscriber has a count of 1 and no report yet that day |
| ReportApi.RequestError | functions/api/report.ts:500-524 | 500 "OpenAI API key not configured", 500 "Database not configured", 400 "Invalid request body", 400 "Missing careerInput or analysis", 402 "Payment required", in that order; none iff configured with a body holding all three fields |
| ReportApi.ModelReply | functions/api/report.ts:575-636 | the report iff the model returned one; 502 "OpenAI API error: <status>" for a non-ok answer, 502 "Empty response from OpenAI" without content, 500 with the error message (or "Failed to generate report") when the call throws |
| ReportApi.PreviousAnalysis | functions/api/report.ts:546-555 | a stored last analysis exactly for a passed subscription request whose user id is non-empty and has one; none for any other request |
| ReportApi.GenerateReport | functions/api/report.ts:497-638 | early errors change nothing; otherwise daily_usage is as after verifyPayment on every path; a rejection answers the gate's status and error with no prompt; a pass answers the model reply, with the prompt built from the defaulted input, the analysis and the subscriber's stored last analysis; a one-time report only for a paid, unused order, which it marks (its report count goes from 0 to 1), orders unchanged otherwise; a subscriber report only as the day's first (usage and report count go from 0 to 1), upserting e-mail, defaulted input and analysis when user and e-mail are known, subscriber_profiles unchanged otherwise; the invariant kept |
| ReportApi.RecordReport | functions/api/report.ts:600-629 | a delivered report marks the one-time order and counts its report, or counts the subscriber's report of the day and stores the input and analysis when user and e-mail are known |

## Left out

- Network, database, mail and model calls are not modelled. Their outcomes are parameters: counts, response bodies and "ok" flags, and for the endpoints, the RSS fetch and the digest sends also thrown errors. `Promise.all` concurrency is not modelled. Two requests racing between the payment gate and the report mark are not modelled either.
- `Math.log10` and floating point are replaced by the exact integer characterisation of the rounded score. `ScoreBar.Pct` uses Dafny reals.
- HMAC-SHA256 and base64 decoding of the webhook secret are a parameter function. It yields None when the secret cannot be decoded.
- `JSON.parse` of request bodies and of the model's reply are represented by `Option` inputs and by the `ModelOutcome` datatype. Fence stripping of the reply is not modelled.
- The prompt text, the system prompt, the e-mail HTML template, the subject line, date formatting and the AI briefing are not modelled. Only the values that feed them are.
- The `increment_daily_usage` SQL function is not modelled. It is taken to add one to the user's row for the current UTC day, the same day check-subscription reads.
- Database write failures inside the endpoints (a failed PATCH or upsert, and the 500 from the webhook's catch) are not modelled. The exception is the checkout insert: a non-ok insert is ignored and the URL still returned, while a thrown insert answers 500 with its message.
- The score connectors see only resolved responses. A `fetch` that rejects (a network error) or a body that is not JSON makes fetchGitHubData, fetchStackExchangeData, fetchNPMData and fetchPyPIData throw out of `Promise.all`; the model does not represent these throws. The GitHub and StackExchange throws it does model are the ones for a non-ok status.
- GitHub.FirstFailure: when several skill searches fail, `Promise.all` rejects with whichever failure settles first, which depends on timing. The model reports the first failing skill in list order, one of the possible outcomes.
- GitHub.FetchFor: the contract promises only that a throw carries the status of some failing skill search, not of the one that settles first. StackExchange.FetchStackExchangeData is stated the same way.
- JsText.ToLower: lowers the letters A-Z only. JavaScript's toLowerCase also lowers other Unicode capitals and can change the length ('İ', U+0130, becomes two code units), so tags are modelled as if skill names were ASCII.
- ReportApi.GenerateReport: builds the prompt with the corrected `ReportPrompt.BuildPrompt`. As written, the handler answers 500 to every subscriber who has a stored analysis, after the daily count was already incremented (see Findings).
- Scheduler.Mailer.Run: a failure whose exception has no message is logged with error message null. The model always carries a message.
- Parse-resume, the client API wrappers, the UI pages other than the score bar, report and preview labels, account deletion, e-mail preferences and unsubscribe are outside this model.
- The RSS regular expressions are modelled as leftmost searches. The `i` flag of the tag expressions becomes ASCII case-insensitive comparison; Unicode case folding is not modelled.

## Findings

| source | as written | input that shows it | evidently intended | confidence | as-written member | corrected member |
|---|---|---|---|---|---|---|
| functions/api/report.ts:391 | `userPrompt +=` assigns to the `const` declared at report.ts:300. This throws a TypeError; the catch at report.ts:632 turns it into a 500 | a subscription request whose user has a stored `last_analysis` | append the previous analysis and the trend deltas to the prompt | high; not executed | ReportPrompt.BuildPromptAsWritten | ReportPrompt.BuildPrompt |
