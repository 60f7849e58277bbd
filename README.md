# DreamCanvas, modelled in Dafny

DreamCanvas is a Next.js career-planning app. A user states their skills and a
target role. A language model produces a 30-day learning roadmap. The user
works through it on a calendar page, ticking off topics and watching video
search results for each day. Badges, a progress bar, a chat coach and a
job-posting fraud checker sit around it.

Nearly everything goes through hosted services: Supabase (auth and tables),
the Groq chat-completion API, a YouTube search proxy and a fraud classifier.
This project models the decision logic the app itself contains and proves
what that logic guarantees:

- one day's task cells: topic normalisation, rehydrating the completion map
  from the `progress` table, and the toggle with its upsert and pop-up;
- the calendar page: its redirects, a stable sort by day, and the per-topic
  video cache that only fills missing topics;
- the badge image resolver, including its anchored streak pattern;
- the distinct-day count and the rounded percentage of the progress bar;
- the roadmap route: field checks, a faithful model of the code-fence
  regular expression, and the status and error mapping;
- the chat transcript state machine;
- the job checker's label, confidence and display category;
- the route guard, the home page's "Get Started" routing, logout and
  overlays, the login redirect sequence, and the skill form's storage writes.

Each page or component that holds React state becomes a `class`. Its fields
are the state variables. Its methods are the handlers, and a `seq<Effect>`
log stands in for navigations, `localStorage` writes and pop-ups. Every
store query, HTTP call, `jsonrepair` and `JSON.parse` is an input to the
model: the reply the collaborator gives, including "it threw". Pure logic
becomes functions, and what those functions mean is proved in lemmas.

Modules, one per source file plus four helpers:

| module | file | models |
|---|---|---|
| `DaySection` | `day_section.dfy` | `src/app/roadmap/components/DaySection.tsx` |
| `Calendar` | `calendar.dfy` | `src/app/calender/page.tsx` |
| `Badges` | `badge_wall.dfy` | `src/app/components/BadgeWall.tsx` |
| `Progress` | `progress_bar.dfy` | `src/app/components/ProgressBar.tsx` |
| `RoadmapRoute` | `generate_roadmap.dfy` | `src/app/api/generate-roadmap/route.ts` |
| `Chat` | `career_chatbot.dfy` | `src/app/components/CareerChatbot.tsx` |
| `JobCheck` | `job_detection.dfy` | `src/app/JobDetection/page.tsx` |
| `Guard` | `middleware.dfy` | `src/app/middleware.ts` |
| `Home` | `home_page.dfy` | `src/app/page.tsx` |
| `Login` | `login_page.dfy` | `src/app/login/page.tsx` |
| `Analyze` | `analyze_page.dfy` | `src/app/analyze/page.tsx` |
| `Text` | `text.dfy` | ECMAScript white space and `trim`, `includes`, number-to-string |
| `Json` | `json.dfy` | JSON values, JavaScript truthiness, optional chaining |
| `Browser` | `browser.dfy` | the effect log: router, `localStorage`, pop-ups |
| `Wrappers` | `wrappers.dfy` | `Option` |

## Model

| member | source | states |
|---|---|---|
| `Text.TrimStartSpec` | src/app/components/CareerChatbot.tsx:30 | What the leading trim drops is all white space, and what it keeps does not start with white space. |
| `Text.TrimEndSpec` | src/app/components/CareerChatbot.tsx:30 | What the trailing trim drops is all white space, and what it keeps does not end with white space. |
| `Text.TrimEdges` | src/app/components/CareerChatbot.tsx:30 | A trimmed string neither starts nor ends with ECMAScript white space. |
| `Text.BlankIffAllWhiteSpace` | src/app/JobDetection/page.tsx:109 | `!s.trim()` holds exactly when every character of `s` is white space, the empty string included. |
| `Text.TrimIsCore` | src/app/api/generate-roadmap/route.ts:90 | If `s[..a]` and `s[b..]` are white space and `s[a..b]` has no white space at its edges, `trim` gives exactly `s[a..b]`. |
| `Text.TrimSlice` | src/app/api/generate-roadmap/route.ts:90 | The same characterisation of `trim`, for a slice of a larger string. |
| `Text.ContainsAt` | src/app/JobDetection/page.tsx:132-136 | `includes(sub)` holds exactly when `sub` occurs at some index. |
| `Text.DecimalRoundTrip` | src/app/roadmap/components/DaySection.tsx:54 | Reading back the decimal rendering of a number gives the number. |
| `Text.IntToStringInjective` | src/app/roadmap/components/DaySection.tsx:87 | Distinct integers render as distinct strings, the sign included. |
| `Browser.UntouchedKeyUnchanged` | src/app/analyze/page.tsx:17-18 | A storage key that no effect writes or removes keeps its presence and its value. |
| `DaySection.NormalizeTopics` | src/app/roadmap/components/DaySection.tsx:18-22 | The topics are `item.topics` when it is an array, else `[item.topic]` when the topic is truthy, else none; every topic comes from one of the two fields. |
| `DaySection.DayLabelInjective` | src/app/roadmap/components/DaySection.tsx:84-94 | Distinct days get distinct `Day N` labels, so the upsert conflict key never merges two days. |
| `DaySection.RehydratedSpec` | src/app/roadmap/components/DaySection.tsx:56-61 | The rehydrated map holds exactly the rows' tasks, and each task maps to the flag of its last row, so later rows overwrite earlier ones. |
| `DaySection.RehydrateProgress` | src/app/roadmap/components/DaySection.tsx:57-60 | The `forEach` loop builds exactly the rehydrated map of the rows. |
| `DaySection.RehydrateMirrorsStore` | src/app/roadmap/components/DaySection.tsx:50-61 | Rehydrating from the rows the table returns for (user, day) shows every checkbox as the table holds it. |
| `DaySection.ToggleFrame` | src/app/roadmap/components/DaySection.tsx:79-81 | A toggle sets the topic to `!completed[topic]`, so an absent key becomes checked, and leaves every other key's presence and value unchanged. |
| `DaySection.ToggleTwiceRestores` | src/app/roadmap/components/DaySection.tsx:79-81 | Toggling the same topic twice shows every checkbox as before. |
| `DaySection.ToggleKeepsMirror` | src/app/roadmap/components/DaySection.tsx:79-94 | When the upsert of the toggled value is stored, the checkboxes and the table stay in step. |
| `DaySection.FailedUpsertDiverges` | src/app/roadmap/components/DaySection.tsx:81-109 | When the upsert fails, the optimistic update is not rolled back, so the checkboxes no longer match the table. |
| `DaySection.VideoPanelAsWritten` | src/app/roadmap/components/DaySection.tsx:152-158 | Videos are shown exactly when the topic's list is non-empty; a missing or empty list both show "Loading videos...". |
| `DaySection.VideoPanelIntended` | src/app/roadmap/components/DaySection.tsx:152-158 | The corrected panel: "Loading" exactly while the topic has no entry, a notice exactly for an empty list, and the videos otherwise. |
| `DaySection.Section.constructor` | src/app/roadmap/components/DaySection.tsx:24-25 | A section starts with no user, an empty map, and no upserts or effects. |
| `DaySection.Section.LoadSession` | src/app/roadmap/components/DaySection.tsx:30-41 | The user id is stored only when the session has a non-empty one; nothing else changes. |
| `DaySection.Section.FetchProgress` | src/app/roadmap/components/DaySection.tsx:47-65 | Without a user nothing is queried. With one, the query is for that user and `Day N`; a reply with data replaces the map with its rehydration, and an error leaves the map unchanged. |
| `DaySection.Section.HandleToggle` | src/app/roadmap/components/DaySection.tsx:73-110 | Without a user nothing changes. With one: the map is toggled; exactly one upsert `(user, Day N, topic, newValue)` on `user_id,day,task` is logged in either direction; the success pop-up appears exactly when the write succeeded and the new value is true. |
| `Calendar.InsertByDaySpec` | src/app/calender/page.tsx:55 | Inserting into a day-sorted list keeps it sorted and adds exactly the one row. |
| `Calendar.SortByDay` | src/app/calender/page.tsx:55 | The sorted copy is ordered by day and is a permutation of the fetched rows. |
| `Calendar.SortByDayStable` | src/app/calender/page.tsx:55 | The sort is stable: the rows of each day keep their relative order. |
| `Calendar.FindDay` | src/app/calender/page.tsx:64 | `find` gives nothing exactly when no row has that day, and otherwise the first row with that day. |
| `Calendar.DayTopics` | src/app/calender/page.tsx:64-71 | A day has topics to look at exactly when some roadmap row has that day. |
| `Calendar.NeedFetch` | src/app/calender/page.tsx:74-81 | The scan with `break` reports a fetch exactly when some topic of the day has no cache entry. |
| `Calendar.MissingSpec` | src/app/calender/page.tsx:76-89 | A topic is searched exactly when it is listed and has no entry. |
| `Calendar.FilledSpec` | src/app/calender/page.tsx:87-108 | After a fill, every topic has an entry, earlier entries are unchanged, and every new entry is that topic's fetched list. |
| `Calendar.FilledAllPresent` | src/app/calender/page.tsx:76-83 | When every topic already has an entry, an empty list included, nothing is searched and the cache is unchanged. |
| `Calendar.FilledIdempotent` | src/app/calender/page.tsx:73-108 | Filling the same day again searches nothing and changes nothing. |
| `Calendar.FillMissing` | src/app/calender/page.tsx:87-106 | The per-topic loop leaves exactly the filled cache: a failed search caches `[]`. It sends one query `topic for target` per missing listing, in order. |
| `Calendar.FillForDay` | src/app/calender/page.tsx:63-106 | The cache work of `fetchVideosForDay`: whether any search is made, the queries sent, and the resulting cache, each as a function of the snapshot. |
| `Calendar.NoFetchNoChange` | src/app/calender/page.tsx:64-83 | A day that is absent, or whose topics are all cached, leaves the cache unchanged and sends no query. |
| `Calendar.HandedItem` | src/app/calender/page.tsx:271-276 | The item handed to the section always has a `topics` value, and its day, topic and subtasks are unchanged. |
| `Calendar.HandedTopicsAgree` | src/app/calender/page.tsx:271-276 | The section shows exactly the topics the page fetched videos for. |
| `Calendar.FailedSearchShowsLoading` | src/app/calender/page.tsx:98-104 | As written, a topic whose search failed shows "Loading videos..." after the fill has finished. |
| `Calendar.FilledNeverLoading` | src/app/calender/page.tsx:98-104 | With the corrected panel, no topic of a filled day shows the loading text, and a failed search shows the notice. |
| `Calendar.CalendarPage.constructor` | src/app/calender/page.tsx:13-19 | The page starts loading with an empty roadmap, an empty cache, no selected day and an empty target. |
| `Calendar.CalendarPage.FetchRoadmap` | src/app/calender/page.tsx:22-58 | Without a session: the page replaces to /login and nothing is queried or changed. With one: the user id is stored and a truthy target replaces the old one; an error or non-array reply replaces to /analyze and leaves the roadmap alone; rows are stored sorted and loading ends. |
| `Calendar.CalendarPage.LoadRows` | src/app/calender/page.tsx:45-57 | The roadmap half of `fetchRoadmap`, with every other field framed. |
| `Calendar.CalendarPage.FetchVideosForDay` | src/app/calender/page.tsx:63-110 | The cache becomes its fill for the day, the queries are recorded, and the video spinner ends off; nothing else changes. |
| `Calendar.CalendarPage.ClickDay` | src/app/calender/page.tsx:195-198 | A click selects the day and then does exactly what `fetchVideosForDay` does: the cache becomes its fill, the queries are appended, the spinner ends off, and nothing else changes. |
| `Calendar.CalendarPage.SelectedItem` | src/app/calender/page.tsx:120 | An item is shown exactly when a day is selected and the roadmap has it; that item has the day and always a `topics` value. |
| `Badges.StreakDigitsIff` | src/app/components/BadgeWall.tsx:59-62 | `^(\d+)-Day Streak$` matches exactly the names made of one or more digits followed by the suffix, and captures those digits. |
| `Badges.BadgeImageCases` | src/app/components/BadgeWall.tsx:52-67 | The two named badges map to their images. A streak name maps to `streak_<digits>.png`, digits verbatim. Every other name maps to the default. |
| `Badges.StreakImagesDistinct` | src/app/components/BadgeWall.tsx:59-64 | Distinct streak badges get distinct images. |
| `Badges.BadgeNames` | src/app/components/BadgeWall.tsx:30 | The badge list is the rows' names in row order. |
| `Badges.OrZero` | src/app/components/BadgeWall.tsx:40-43 | A missing or zero total shows 0, and any other value shows itself. |
| `Badges.BadgeWall.constructor` | src/app/components/BadgeWall.tsx:17-19 | The wall starts with no badges and zero totals. |
| `Badges.BadgeWall.Load` | src/app/components/BadgeWall.tsx:22-50 | An empty user id queries nothing. Otherwise, rows replace the list and a stats row sets both totals; a reply without data leaves its part unchanged. |
| `Badges.BadgeWall.Images` | src/app/components/BadgeWall.tsx:133-134 | One image per badge, in order, each the resolver's image for that name. |
| `Progress.DayCount` | src/app/components/ProgressBar.tsx:26-28 | The count is at most the number of rows, and it is zero exactly when there are none. |
| `Progress.DayCountIsCountDistinct` | src/app/components/ProgressBar.tsx:26-28 | The set size equals an independent scan that counts each day label once. |
| `Progress.DayCountOfSameDays` | src/app/components/ProgressBar.tsx:26-28 | The count depends only on which labels occur, not on order, repeats or completed flags. |
| `Progress.RoundRatio` | src/app/components/ProgressBar.tsx:33 | `Math.round(n / m)` is the nearest integer, with halves rounded up. |
| `Progress.Percentage` | src/app/components/ProgressBar.tsx:33 | The percentage never exceeds 100. |
| `Progress.PercentageClosedForm` | src/app/components/ProgressBar.tsx:33 | Below 30 days the percentage is `(10 d + 1) / 3` in integer division, since the exact ratio is never a half. |
| `Progress.PercentageMonotone` | src/app/components/ProgressBar.tsx:33 | More days never show a smaller percentage. |
| `Progress.PercentageFull` | src/app/components/ProgressBar.tsx:33 | The bar shows 100 exactly from day 30 on. |
| `Progress.FetchedDayCount` | src/app/components/ProgressBar.tsx:12-31 | An empty user id or a query error leaves the count unchanged; data sets it to the distinct-day count. |
| `RoadmapRoute.LazyClose` | src/app/api/generate-roadmap/route.ts:90 | The lazy group ends at the first position from which white space and then a fence follow, or there is none. |
| `RoadmapRoute.StripFenceSpec` | src/app/api/generate-roadmap/route.ts:90-93 | The regex-driven extraction gives the trimmed text of the first fenced block, after an optional `json` tag, when two fences exist; otherwise the whole content. |
| `RoadmapRoute.FencedBlockTrimmed` | src/app/api/generate-roadmap/route.ts:90-93 | An extracted block has no white space at either edge. |
| `RoadmapRoute.Post` | src/app/api/generate-roadmap/route.ts:18-131 | Status 200 comes exactly with a success body, and a success body always has a `roadmap` array. Nothing is repaired when the model service was not called. |
| `RoadmapRoute.Unwrap` | src/app/api/generate-roadmap/route.ts:81-115 | Every outcome after an OK reply records that the model service was called. |
| `RoadmapRoute.MissingFieldsRejected` | src/app/api/generate-roadmap/route.ts:21-29 | A falsy `skills` or `role` gives exactly 400 "Missing fields: skills or role" and no upstream call; both fields present always call upstream. |
| `RoadmapRoute.ServiceStatusPassedOn` | src/app/api/generate-roadmap/route.ts:71-78 | A non-OK upstream reply is returned with its own status and its text as the detail. |
| `RoadmapRoute.RepairedText` | src/app/api/generate-roadmap/route.ts:82-104 | Exactly the fenced block, or the whole content, is handed to repair. A non-string content, or a failed repair or parse, gives 500 "Invalid JSON format in LLM response". |
| `RoadmapRoute.RoadmapChecked` | src/app/api/generate-roadmap/route.ts:107-115 | A parsed value without a truthy `roadmap` array gives 500 "Response missing valid roadmap array"; one with it is returned unchanged with 200. |
| `RoadmapRoute.SuccessNeedsEverything` | src/app/api/generate-roadmap/route.ts:18-115 | Success needs both fields and an OK parsed reply, and the body returned is exactly what repair gave for the extracted text. |
| `Chat.ReplyMessage` | src/app/components/CareerChatbot.tsx:55-70 | The appended message is the assistant's: a truthy reply verbatim, otherwise the fixed error text. |
| `Chat.Chatbot.constructor` | src/app/components/CareerChatbot.tsx:13-21 | The transcript starts as exactly the greeting, with an empty input and no request in flight. |
| `Chat.Chatbot.SetInput` | src/app/components/CareerChatbot.tsx:123 | Typing changes only the input. |
| `Chat.Chatbot.Submit` | src/app/components/CareerChatbot.tsx:29-51 | A blank input or a request in flight changes and sends nothing. Otherwise the untrimmed user message is appended, the input clears, loading starts, and the request carries the prior transcript plus that message. |
| `Chat.Chatbot.Receive` | src/app/components/CareerChatbot.tsx:53-73 | Settling appends exactly one assistant message and ends loading; the input is kept. |
| `Chat.Chatbot.SendMessage` | src/app/components/CareerChatbot.tsx:29-74 | An accepted send grows the transcript by exactly two, the user's message then the reply, and ends with loading off; a refused one changes nothing. |
| `JobCheck.ResultFor` | src/app/JobDetection/page.tsx:35-54 | The error label, with confidence 0, is given exactly when the check failed or the body is `null`. "Fake" is given exactly for `prediction === 1`, "Real" otherwise; confidence is copied through. |
| `JobCheck.LabelsDistinct` | src/app/JobDetection/page.tsx:41-53 | The three labels are pairwise distinct. |
| `JobCheck.FakeLabelCategory` | src/app/JobDetection/page.tsx:132-133 | The fake label is shown as danger. |
| `JobCheck.RealLabelCategory` | src/app/JobDetection/page.tsx:132-135 | The real label is shown as safe. |
| `JobCheck.ErrorLabelCategory` | src/app/JobDetection/page.tsx:132-136 | The error label is shown as a warning. |
| `JobCheck.ResultCategory` | src/app/JobDetection/page.tsx:132-136 | A settled result is shown as danger exactly for a fake prediction, and as a warning exactly when the check failed. |
| `JobCheck.JobChecker.constructor` | src/app/JobDetection/page.tsx:16-18 | The checker starts with an empty description, no result and no request in flight. |
| `JobCheck.JobChecker.SubmitDisabled` | src/app/JobDetection/page.tsx:109 | The check button is disabled exactly when a check is in flight or every character of the description is white space (the empty description included). |
| `JobCheck.JobChecker.SetDescription` | src/app/JobDetection/page.tsx:95 | Typing changes only the description. |
| `JobCheck.JobChecker.Begin` | src/app/JobDetection/page.tsx:20-33 | Submission sets loading, clears the previous result and sends the description. |
| `JobCheck.JobChecker.Complete` | src/app/JobDetection/page.tsx:41-56 | Settling sets the labelled result and ends loading on every path. |
| `JobCheck.JobChecker.HandleSubmit` | src/app/JobDetection/page.tsx:20-57 | From start to end: the description as sent, then the labelled result with loading off. |
| `Guard.Middleware` | src/app/middleware.ts:5-18 | A request is redirected, always to /login, exactly when there is no session and the path starts with /analyze. |
| `Guard.Route` | src/app/middleware.ts:21-23 | With the matcher applied, only a session-less request for exactly /analyze is redirected. |
| `Guard.SessionPasses` | src/app/middleware.ts:13-17 | A request with a session always passes. |
| `Guard.LoginNeverRedirected` | src/app/middleware.ts:13-15 | The login page is never redirected, so the guard cannot loop. |
| `Guard.MatcherWithinGuard` | src/app/middleware.ts:13-23 | Every registered path is one the guard covers. The guard's prefix test also covers paths the matcher never hands to it. |
| `Analyze.HandleSubmit` | src/app/analyze/page.tsx:11-22 | Without both fields the only effect is the alert. With both, there are three effects and the single navigation is the last one, to /roadmap. |
| `Analyze.SubmitStorage` | src/app/analyze/page.tsx:14-18 | Without both fields storage is untouched; with both, `userSkills` and `targetRole` hold the values verbatim. |
| `Analyze.OtherKeysUnchanged` | src/app/analyze/page.tsx:17-18 | No other storage key is written or removed. |
| `Analyze.NavigationAfterWrites` | src/app/analyze/page.tsx:17-21 | Every effect before the navigation is a storage write. |
| `Login.SignInErrorText` | src/app/login/page.tsx:32 | The pop-up text is the error message, or "Login failed" when it is empty; it is never empty. |
| `Login.LoginEffects` | src/app/login/page.tsx:20-77 | Exactly one effect. It is a navigation exactly when all three calls succeed: /calender exactly when a row was found, /analyze exactly when not. Otherwise it is an "Oops..." error pop-up: the sign-in message (or "Login failed") on a sign-in error, "Could not fetch user details." on a user error or no user, and "Something went wrong, please try again." when any of the three calls throws. |
| `Login.LookupFor` | src/app/login/page.tsx:38-59 | The roadmap lookup is made, for the user's id, exactly when sign-in succeeded and a user came back. |
| `Login.FailureStaysOnPage` | src/app/login/page.tsx:26-52 | A failed sign-in or user lookup never navigates and makes no roadmap lookup. |
| `Login.LoginPage.constructor` | src/app/login/page.tsx:11-13 | The form starts empty and not loading. |
| `Login.LoginPage.SetEmail` | src/app/login/page.tsx:139 | Typing changes only the e-mail. |
| `Login.LoginPage.SetPassword` | src/app/login/page.tsx:164 | Typing changes only the password. |
| `Login.LoginPage.Start` | src/app/login/page.tsx:16-24 | Submission sets loading and sends the credentials as typed. |
| `Login.LoginPage.Settle` | src/app/login/page.tsx:26-77 | Loading is off on every exit path, and the effects are those of the replies. |
| `Login.LoginPage.HandleLogin` | src/app/login/page.tsx:16-78 | The whole handler: the credentials are sent as typed and stay in the form, the lookup is made as above, loading ends off, and the effects of the replies are appended. |
| `Home.GetStartedPath` | src/app/page.tsx:88-111 | /login exactly without a user id. /calender exactly when a row came back with no error or only "no rows" (PGRST116). /analyze in all other cases. |
| `Home.GetStartedAgreesWithLogin` | src/app/page.tsx:93-110 | For a signed-in user, "Get Started" and the post-login redirect send to the same place whenever the lookup does not give both a row and an error. |
| `Home.LogoutStorage` | src/app/page.tsx:34-39 | Logout removes `token`, leaves every other key as it was, and navigates to /login. |
| `Home.OverlayExcludesCta` | src/app/page.tsx:176 | The badge overlay (line 176) and the call-to-action buttons (line 79) are never shown together. A signed-out page never shows the overlay. |
| `Home.HomePage.constructor` | src/app/page.tsx:14-17 | The page starts signed out with both overlays hidden. |
| `Home.HomePage.CheckSession` | src/app/page.tsx:21-31 | A session with a user signs the page in with that id; otherwise both stay as they were. |
| `Home.HomePage.Logout` | src/app/page.tsx:34-39 | Sign-out, token removal and /login are appended in order, and the page is signed out. The user id is kept, but the overlay is hidden. |
| `Home.HomePage.GetStarted` | src/app/page.tsx:88-111 | The lookup is made exactly when there is a user id, and exactly one navigation, to the routed path, is appended. |
| `Home.HomePage.ToggleBadgeWall` | src/app/page.tsx:157 | The badge-wall flag flips, and nothing else changes. |
| `Home.HomePage.ToggleJobChecker` | src/app/page.tsx:132 | The job-checker flag flips, and nothing else changes. |
| `Home.HomePage.CloseBadgeWall` | src/app/page.tsx:182 | The badge wall closes, and nothing else changes. |
| `Home.HomePage.CloseJobChecker` | src/app/page.tsx:213 | The job checker closes, and nothing else changes. |

## Left out

- Supabase queries and upserts: modelled as the reply each call gives. Uniqueness and conflict resolution belong to the hosted store; a stored upsert is a map update on its key.
- The Groq, YouTube and classifier HTTP calls, `res.json()`, `jsonrepair` and `JSON.parse`: modelled as inputs. Repair and parse are one partial function from text to JSON.
- The request the roadmap route sends to the model service: the prompt (which fills in the request's `role` and `skills`, src/app/api/generate-roadmap/route.ts:32-54), the headers, the API key and the model name. The service's reply is an input.
- The roadmap route's "Unknown error" branch (src/app/api/generate-roadmap/route.ts:126-130) is taken only for a thrown value that is not an `Error`. None of the calls in the route throws one, so the branch is not modelled. Engine `TypeError` messages are modelled as one value, without their wording.
- The chat, explain-job, search and auth API routes: they only check presence and forward fields.
- PDF export, rendering, animation, styling, `console` logging and the scroll effect of the chatbot.
- Point, streak and badge awarding: the modelled components only read the `users` row's `points, streak` and the `badges` table (src/app/components/BadgeWall.tsx:25-38); none of them awards anything, and the toggle handler (src/app/roadmap/components/DaySection.tsx:73-110) writes only its progress upsert.
- `Promise.all` in `fetchVideosForDay` runs as a sequential loop. Every topic checks the copy taken before any result arrives, and a search depends only on its query, so the final cache is the same. The `videoLoading` flag's intermediate `true` is not observable in a method's postcondition.
- FetchVideosForDay: each call runs atomically. The page's day buttons stay enabled while videos load, and each `fetchVideosForDay` call copies `videoMap` when it starts (src/app/calender/page.tsx:73) and writes that copy back when its searches finish (line 108). Two overlapping calls, such as a click on day 1 and then on day 2 before day 1's searches return, are not modelled: whichever finishes last overwrites the other's new entries, and the first to finish turns `videoLoading` off while the other is still searching. "Earlier entries are kept" is proved per call, not across overlapping calls.
- ClickDay: inherits the atomic-call simplification of FetchVideosForDay.
- React's asynchronous state: the `loading` flags and the `completed` map are updated immediately, so a stale closure between `setState` calls is not modelled.
- Roadmap `day` is an integer, and `Number(day)` is the identity. src/types/index.ts:3 declares `day: string`, and src/app/roadmap/components/DaySection.tsx:5 imports that type; the `@/_types` module that src/app/calender/page.tsx:5 imports is not part of this model. The integer day follows the numeric `===` comparisons at src/app/calender/page.tsx:64 and :120 and the numeric `"day"` the generator asks for (src/app/api/generate-roadmap/route.ts:40, :49); with string days those two `find` calls would never match. String, fractional and `NaN` days are not modelled.
- `Progress.Percentage` works on exact rationals, not JavaScript floating point.
- Prototype properties such as `constructor` in the `videoMap` object are not modelled; the cache is a map with only its own keys.
- A truthy chat reply that is not a string, such as a number, is not modelled; the reply is an optional string.
- The day buttons offer days 1 to 30 only; `ClickDay` accepts any day.
- Navigation after an `await` is an effect appended to the log. Unmounting a page mid-request is not modelled.
- `src/app/middleware.ts` lives under `src/app/`, where Next.js does not pick up middleware. The model describes what it would do if loaded.
- Next.js matcher semantics are reduced to exact path equality.
- In the home page's lookup, an `undefined` error code is a string other than PGRST116.
- `Text.TrimStart` and `Text.TrimEnd` state only the slicing in their own contracts. Their white-space facts are the lemmas `Text.TrimStartSpec` and `Text.TrimEndSpec`.
- The badge wall's close button and the job checker's `onClose` prop are not modelled; they are the callers' overlay toggles.

## Findings

| source | as written | input that shows it | evidently intended | confidence | as-written member | corrected member |
|---|---|---|---|---|---|---|
| src/app/roadmap/components/DaySection.tsx:152-158 | A topic whose video list is empty shows "Loading videos...", and the calendar caches `[]` for a failed search (src/app/calender/page.tsx:98-104). | A topic whose search request answers non-OK: after the fill it shows "Loading videos..." for good. | "Loading" only while the topic has no entry; an empty list shows that no videos were found. | not executed | `Calendar.FailedSearchShowsLoading` | `Calendar.FilledNeverLoading` |
