# Food-donation front-end: a verified Dafny model of its client-side logic

The modelled system is a React single-page front-end for a food-donation service.
Donors post surplus food, requesters ask for it, and an AI backend suggests
categories, expiry dates, nutrition facts and storage tips. All persistence and
business rules live behind an HTTP backend. What the front-end itself decides is
modelled here:

- **Request pipeline** (`Api`, from `src/services/api.js`).
  - A token store with get/set/clear.
  - The request interceptor, which adds `Authorization: Bearer <token>` and keeps every other header.
  - The response interceptor. An HTTP 401 ("Unauthorized", section 15.5.2 of RFC 9110) empties the store and redirects to `/login`. Every error is re-rejected unchanged.
- **Session manager** (`AuthContext`, from `src/contexts/AuthContext.jsx`). The `user`/`loading` state of `AuthProvider`, with the bootstrap from a stored token, `login`, `register` and `logout`.
- **Route guard** (`PrivateRoute`, from `src/components/PrivateRoute.jsx`). The guard's four outcomes, plus the roles the route table of `src/App.jsx` demands.
- **My donations page** (`MyDonations`, `TipsMarkdown`, from `src/pages/MyDonations.jsx`).
  - The page state, the cancel action and the storage-tips modal.
  - The markdown-subset renderer for the tips. It has a line-oriented block pass (spacers, bullet lists, paragraphs) and an inline pass that splits text at non-greedy `**…**` pairs.
  - The dates the expiry calendar highlights.
- **Donation details page** (`DonationDetails`, from `src/pages/DonationDetails.jsx`).
  - `humanize`: table lookup, camel-case splitting, `_`/`-` collapsing, word capitalisation.
  - The nutrition and consume-ratio query defaults.
  - The serving-size cell and the consume-ratio modal.
- **Dashboard** (`Dashboard`, from `src/pages/Dashboard.jsx`). The case-insensitive search filter and the sort that puts donations lacking the sort key last.
- **Create donation page** (`CreateDonation`, from `src/pages/CreateDonation.jsx`).
  - The form record and its single-field updates.
  - The submit payload.
  - The AI categorise and expiry-prediction handlers, with their reply-shape priorities.
  - `pad` and the pluralised notice.
- **My requests page** (`MyRequests`, from `src/pages/MyRequests.jsx`). The `{open, id}` confirm dialog, the cancel eligibility rule and the donor-contact mail link.

## Modelling conventions

- **Backend replies are inputs.** Each operation that calls the backend takes a `Reply` argument: a body, or an error that may carry a status and a body. It returns the `Config` it sent, after the request interceptor ran.
- **Effects are values.** Toasts and navigation come back as a list of `Effect` values, in order.
- **Pages are classes.** A page whose state the source updates step by step is a class. Its fields are the `useState` cells, its methods are the handlers, and it holds the shared `ApiClient`.
- **Shared token store.** `AuthProvider` and every page share one `TokenStore`. A 401 on any call, including `/auth/login`, clears it.
- **Backend bodies are JSON values.** They are values of one `Json` datatype. JavaScript truthiness, `v?.key`, `a || b`, `String(v)`, `Number(v)` and `parseInt(s, 10)` are written out over it (module `Json`).
- **Integers only.** Numbers are integers, and `JNaN` is NaN.
- **ASCII only.** White space and letter case follow the ASCII range.
- **Time and encoding are parameters.** The clock-and-timezone formatting of the predicted expiry is `toLocalInput`, and `encodeURIComponent` is `encode`.

Two behaviours a reader might expect are not what the code does, and the model follows the code:

- **Failed login or registration.** Such a call does not leave the session untouched. It goes through the shared client, so a 401 reply clears the stored token and redirects to `/login`, as for any other call.
- **Logout during bootstrap.** A profile fetch that resolves after `logout` is not ignored. The code has no guard for it, and the model does not claim one.

One consequence of the code's `res.data || {}` in the expiry prediction is proved as stated: a bare `0` reply is rejected as an unexpected format (`CreateDonation.ExpiryDaysRejects`), while `{days: 0}` gives 0 days.

## Model

| member | source | states |
|---|---|---|
| Api.TokenStore.Get | src/services/api.js:3 | reading the store returns the stored token |
| Api.TokenStore.Set | src/services/api.js:3 | after storing `t`, the store holds exactly `t` |
| Api.TokenStore.Clear | src/services/api.js:3 | after clearing, the store is empty whatever it held |
| Api.ApiClient.constructor | src/services/api.js:5-8 | the client uses base URL "/api" and a 15000 ms timeout |
| Api.WithBearer | src/services/api.js:11-21 | with a token, the headers gain or overwrite `Authorization` = "Bearer " + token and keep every other key and value; without one the configuration is returned unchanged |
| Api.BearerRoundTrip | src/services/api.js:14-18 | the header written carries exactly the stored token back to a reader of `Authorization` |
| Api.WithBearerIdempotent | src/services/api.js:14-18 | running the interceptor twice with the same token changes nothing more, and a later token overrides an earlier one |
| Api.WithParam | src/pages/MyDonations.jsx:46 | a query parameter is sent only when its value is neither undefined nor null |
| Api.ApiClient.OnResponseError | src/services/api.js:24-31 | a 401 error empties the store and redirects to `/login`; other errors, or errors without a response, leave the store untouched; the error is re-rejected unchanged |
| Api.ApiClient.Send | src/services/api.js:11-31 | a call sends the configuration decorated with the token stored at dispatch, passes the reply through unchanged, and applies the 401 handling |
| AuthContext.TokenOf | src/contexts/AuthContext.jsx:34-35 | a payload yields a token exactly when its `token` is truthy |
| AuthContext.UserFromPayload | src/contexts/AuthContext.jsx:37 | the session user has exactly `id` from `userId`, and `email`, `name`, `role` from the same payload fields |
| AuthContext.RegisterBody | src/contexts/AuthContext.jsx:45-46 | the registration body's role is the given one, or "USER" when it is omitted |
| AuthContext.AuthProvider.constructor | src/contexts/AuthContext.jsx:9-10 | the session starts with a null user and `loading` true |
| AuthContext.AuthProvider.Bootstrap | src/contexts/AuthContext.jsx:12-29 | with no stored token, loading ends with no request and the user unchanged; with one, `/users/me` is fetched and its body becomes the user, or on any failure the token is cleared and the user is null; loading is false afterwards in every case |
| AuthContext.AuthProvider.Authenticate | src/contexts/AuthContext.jsx:31-56 | a payload carrying a token stores exactly that token, sets the user from the payload, notifies and returns the payload; a payload without one throws "No token returned" and changes nothing; a failed call throws with the user unchanged and only the client's 401 handling applied; `loading` never changes |
| AuthContext.AuthProvider.Login | src/contexts/AuthContext.jsx:31-43 | `login` posts `{email, password}` to `/auth/login`; a payload with a token stores it, sets the user and notifies "Logged in"; a payload without one throws and changes nothing; a failed call throws with the user unchanged, and a 401 also clears the token and redirects to `/login` while any other failure has no effect |
| AuthContext.AuthProvider.Register | src/contexts/AuthContext.jsx:45-56 | `register` posts `{name, email, password, role}` to `/auth/register` with the same outcomes as `login` and the notice "Registered", including the 401 clearing and redirect on a failed call |
| AuthContext.AuthProvider.Logout | src/contexts/AuthContext.jsx:58-63 | from any state, the store is emptied, the user is null, an info notice is shown and the browser goes to `/login` |
| PrivateRoute.Decide | src/components/PrivateRoute.jsx:8-12 | loading shows the placeholder whatever else holds; no user redirects to `/login`; a required role the user lacks redirects to `/dashboard`; children render iff not loading, a user is present and no role is required or it equals the user's role |
| PrivateRoute.RouteRole | src/App.jsx:35-36 | exactly `/admin` and `/volunteer` require a role: `/admin` requires "ADMIN" and `/volunteer` requires "VOLUNTEER" |
| PrivateRoute.RoleGatesFailClosed | src/components/PrivateRoute.jsx:10 | a volunteer is refused the admin panel and an admin the volunteer panel; the admin panel renders for a signed-in user iff the role is exactly ADMIN, the volunteer panel iff it is exactly VOLUNTEER |
| PrivateRoute.UnroledRoutesAdmitAnyUser | src/components/PrivateRoute.jsx:10-12 | routes without a role render for every signed-in user |
| TipsMarkdown.ReplaceCr | src/pages/MyDonations.jsx:63 | the second pass turns every remaining carriage return into a line feed, leaves no carriage return and changes no other character |
| TipsMarkdown.ReplaceCrLfNoCr | src/pages/MyDonations.jsx:63 | text without a carriage return is left as it is by the CRLF pass |
| TipsMarkdown.ReplaceCrLfPair | src/pages/MyDonations.jsx:63 | the CRLF pass turns the first CRLF into one LF and carries on after it |
| TipsMarkdown.NormalizeNewlinesSpec | src/pages/MyDonations.jsx:63 | after normalisation no carriage return remains, text without one is unchanged, and a CRLF becomes a single LF |
| TipsMarkdown.CloseFrom | src/pages/MyDonations.jsx:69-72 | the closing search returns only a position holding `**` at or after where it starts |
| TipsMarkdown.MatchAt | src/pages/MyDonations.jsx:69-72 | a match found at a position opens with `**`, has a non-empty body and closes with `**` |
| TipsMarkdown.FindBold | src/pages/MyDonations.jsx:69-72 | the scan returns only a `**…**` pair at or after the scan position |
| TipsMarkdown.CloseFromSpec | src/pages/MyDonations.jsx:69-72 | the closing search finds the nearest `**` that closes a bold run on one line, and when it finds none there is no such run |
| TipsMarkdown.MatchAtSpec | src/pages/MyDonations.jsx:69-72 | a match at a position is the shortest (non-greedy) bold run starting there, and no run starts there when none is found |
| TipsMarkdown.FindBoldSpec | src/pages/MyDonations.jsx:69-72 | the regular expression's scan finds the leftmost bold run, with the shortest closing, and reports none only when no run starts at or after the scan position |
| TipsMarkdown.PartsStep | src/pages/MyDonations.jsx:72-83 | each match contributes the plain text before it, if any, then the bold piece, and scanning resumes after it |
| TipsMarkdown.PartsLast | src/pages/MyDonations.jsx:84 | once no match remains, only the non-empty tail is added |
| TipsMarkdown.PartsFromParts | src/pages/MyDonations.jsx:67-84 | the pieces accumulated from any point are the pieces so far followed by the pieces of the rest |
| TipsMarkdown.ProcessInline | src/pages/MyDonations.jsx:66-87 | the inline loop returns exactly the pieces of the specification function, and the whole text as one plain piece when nothing matched |
| TipsMarkdown.UnparseAppend | src/pages/MyDonations.jsx:66-87 | reconstruction distributes over concatenation of piece lists |
| TipsMarkdown.UnparseChunk | src/pages/MyDonations.jsx:73-81 | the pieces contributed by one match reconstruct the text from the last position to the end of the match |
| TipsMarkdown.UnparseParts | src/pages/MyDonations.jsx:72-84 | the pieces from any position reconstruct the rest of the text exactly |
| TipsMarkdown.InlinesUnparse | src/pages/MyDonations.jsx:66-87 | concatenating the plain pieces, each bold piece re-wrapped in `**`, reproduces the input |
| TipsMarkdown.BoldPieceWellFormed | src/pages/MyDonations.jsx:69 | a bold piece is non-empty, contains no line break, has no `**` after its first character, and when longer than one character does not end in `*` |
| TipsMarkdown.PartsGood | src/pages/MyDonations.jsx:72-84 | every piece is well formed: plain pieces are non-empty and hold no bold run, bold pieces are well formed |
| TipsMarkdown.InlinesGood | src/pages/MyDonations.jsx:66-87 | for non-empty text, every piece of the inline pass is well formed |
| TipsMarkdown.InlinesExamples | src/pages/MyDonations.jsx:66-87 | "a **b** c" splits into plain, bold, plain, and an unmatched `**` stays literal |
| TipsMarkdown.ItemTextSpec | src/pages/MyDonations.jsx:107-110 | a list item is the trimmed line without its `*` or `-` marker and the white space after it, and does not start with white space |
| TipsMarkdown.BulletEnd | src/pages/MyDonations.jsx:109-113 | a bullet run is maximal: every line in it is a bullet line and the next line is not |
| TipsMarkdown.ParaEnd | src/pages/MyDonations.jsx:129-132 | a paragraph run is maximal: every line in it is non-blank and not a bullet line, and the next line is not |
| TipsMarkdown.ItemTexts | src/pages/MyDonations.jsx:109-112 | one item per bullet line, in order |
| TipsMarkdown.TrimmedLines | src/pages/MyDonations.jsx:129-131 | one trimmed line per paragraph line, in order |
| TipsMarkdown.MapInlines | src/pages/MyDonations.jsx:116-120 | each item is rendered by the inline pass, in order |
| TipsMarkdown.ListBlock | src/pages/MyDonations.jsx:114-122 | a list block has one rendered item per line of the run |
| TipsMarkdown.ParaTextExtend | src/pages/MyDonations.jsx:128-133 | a one-line paragraph is that line trimmed, and each further line is appended after a single space |
| TipsMarkdown.RenderTips | src/pages/MyDonations.jsx:59-60 | falsy input renders nothing, any other input renders blocks |
| TipsMarkdown.CollectItems | src/pages/MyDonations.jsx:108-113 | the inner list loop consumes at least one line, stops at the end of the maximal run and collects its items |
| TipsMarkdown.CollectParagraph | src/pages/MyDonations.jsx:128-132 | the inner paragraph loop consumes at least one line, stops at the end of the maximal run and collects its trimmed lines |
| TipsMarkdown.ProcessItems | src/pages/MyDonations.jsx:116-120 | rendering the items applies the inline pass to each |
| TipsMarkdown.RenderTipsMarkdown | src/pages/MyDonations.jsx:59-143 | the block loop terminates and produces exactly the blocks of the specification function |
| TipsMarkdown.BlocksFromHead | src/pages/MyDonations.jsx:99-129 | the block produced at a line is a spacer, a list or a paragraph iff that line is blank, a bullet line or another line |
| TipsMarkdown.ConsNoAdjacent | src/pages/MyDonations.jsx:107-139 | putting a block in front keeps the no-adjacent-runs property when it differs in kind from the next block |
| TipsMarkdown.BlocksNoAdjacentRuns | src/pages/MyDonations.jsx:107-139 | two list blocks are never adjacent, and neither are two paragraph blocks |
| TipsMarkdown.BlankCountRun | src/pages/MyDonations.jsx:107-132 | a run of non-blank lines adds nothing to the count of blank lines |
| TipsMarkdown.SpacersMatchBlankLines | src/pages/MyDonations.jsx:99-103 | there are exactly as many spacer blocks as blank lines |
| MyDonations.StorageTipsRequest | src/pages/MyDonations.jsx:46 | the tips request names the donation by its truthy title; otherwise by its description whenever that is present and not null, even when falsy; with neither, no name is sent |
| MyDonations.TipsSource | src/pages/MyDonations.jsx:201 | the tips text is the content itself when a string, else `tips`, else `text`, else "" |
| MyDonations.ViewTips | src/pages/MyDonations.jsx:191-206 | the modal shows loading iff there is no content, the error iff the content carries one (showing that `error` value), "No tips returned." iff the tips text is blank, and otherwise the rendered tips |
| MyDonations.FalsySourceIsBlank | src/pages/MyDonations.jsx:201-204 | a falsy tips source is blank text, so the blank check alone decides |
| MyDonations.StringTipsRendered | src/pages/MyDonations.jsx:200-205 | a non-blank string body is rendered as it is |
| MyDonations.FailedFetchShowsError | src/pages/MyDonations.jsx:50 | a failed fetch shows the fixed error text and never tips |
| MyDonations.CancelRequest | src/pages/MyDonations.jsx:33 | the cancel call is a body-less POST to `/donations/` + the id's text + `/cancel`, and the id's text is recovered from the path |
| MyDonations.ExpiryDates | src/pages/MyDonations.jsx:54-56 | the highlighted dates are at most one per donation |
| MyDonations.ExpiryDatesMembership | src/pages/MyDonations.jsx:54-56 | a date is highlighted iff some donation carries it as a truthy `expiryAt` |
| MyDonations.CancelOfferedUnlessCancelled | src/pages/MyDonations.jsx:161 | the Cancel button is withheld iff the donation's `status` is exactly the string "CANCELLED"; any other spelling or a missing status shows it |
| MyDonations.LoadEffects | src/pages/MyDonations.jsx:22-29 | loading the list has no effect on success; a failure gives exactly the load-error notice, preceded by the redirect to `/login` exactly on a 401 |
| MyDonations.MyDonationsPage.constructor | src/pages/MyDonations.jsx:11-15 | the page starts with no donations, the modal closed and no tips |
| MyDonations.MyDonationsPage.FetchMyDonations | src/pages/MyDonations.jsx:22-29 | the list becomes the reply body, or stays unchanged with an error notice; a 401 also clears the token |
| MyDonations.MyDonationsPage.HandleCancel | src/pages/MyDonations.jsx:31-39 | posts to `/donations/<id>/cancel`; on success a notice, then the list fetch sent with the same token and its effects; on failure only the error notice after the client's 401 redirect; the token is cleared exactly when the call that failed got a 401 |
| MyDonations.MyDonationsPage.HandleGetStorageTips | src/pages/MyDonations.jsx:41-52 | the modal opens for the donation, its content becomes the reply body or the fixed error object, and the token is cleared exactly on a 401 |
| MyDonations.MyDonationsPage.CloseTips | src/pages/MyDonations.jsx:186 | closing the modal changes only its visibility |
| DonationDetails.CamelSplitSpec | src/pages/DonationDetails.jsx:31 | camel splitting only inserts spaces, and no lower-case-letter-or-digit is followed by an upper-case letter afterwards |
| DonationDetails.CamelSplitChar | src/pages/DonationDetails.jsx:31 | a single character is left as it is |
| DonationDetails.CamelSplitAppend | src/pages/DonationDetails.jsx:31 | splitting a concatenation splits each half and adds one space exactly when a lower-case letter or digit ends the left half and an upper-case letter starts the right half |
| DonationDetails.CamelSplitBoundary | src/pages/DonationDetails.jsx:31 | a lower-case letter or digit followed by an upper-case letter gets one space between them, and each side is split on its own |
| DonationDetails.DropSeparatorsSuffix | src/pages/DonationDetails.jsx:32 | dropping the leading `_`/`-` run leaves a suffix, strictly shorter when the text starts with a separator, and empty iff the text is all separators |
| DonationDetails.DropSeparatorsAppend | src/pages/DonationDetails.jsx:32 | the leading run of a concatenation is that of the left half, or when the left half is all separators, that of the right half |
| DonationDetails.CollapseSeparatorsSpec | src/pages/DonationDetails.jsx:32 | no `_` or `-` remains, every other non-space character is kept in order, and text without separators is unchanged |
| DonationDetails.CollapseAppend | src/pages/DonationDetails.jsx:32 | collapsing distributes over a cut that does not split a run of separators |
| DonationDetails.CollapseRun | src/pages/DonationDetails.jsx:32 | a non-empty run of separators alone becomes exactly one space |
| DonationDetails.CollapseRunBetween | src/pages/DonationDetails.jsx:32 | a maximal run of separators between two parts becomes one space between the collapsed parts |
| DonationDetails.Capitalize | src/pages/DonationDetails.jsx:35 | a word keeps its length and all but its first character, which is upper-cased |
| DonationDetails.CapitalizeAll | src/pages/DonationDetails.jsx:33-36 | every word is capitalised, in order |
| DonationDetails.Humanize | src/pages/DonationDetails.jsx:12-29 | an empty key gives "", a key of the table gives its label (the synonym pairs share one) |
| DonationDetails.HumanizeWords | src/pages/DonationDetails.jsx:30-36 | outside the table, the label's words are the words of the split and collapsed key, same number and order, each capitalised |
| DonationDetails.AmountParams | src/pages/DonationDetails.jsx:85-86 | quantity defaults to 1 and unit to "kg", so both are always truthy |
| DonationDetails.NutritionQuery | src/pages/DonationDetails.jsx:77-87 | no request while the donation is not loaded; quantity is the truthy quantity else 1, unit the truthy unit else "kg"; the name is the truthy title, else the description when present and not null, else it is not sent; no parameter other than name, quantity and unit is sent |
| DonationDetails.ConsumeRatioQuery | src/pages/DonationDetails.jsx:97-107 | no request while the donation is not loaded; quantity and unit have the same defaults; the name is the title, else the description, else "", and is always sent |
| DonationDetails.ModalContent | src/pages/DonationDetails.jsx:88-91 | a modal holds the reply body, or an error object whose text is the backend's message or the fixed fallback |
| DonationDetails.ServingCell | src/pages/DonationDetails.jsx:303-309 | a truthy `serving_g` shows as grams, else a truthy `serving_ml` as millilitres, else a truthy `piecesPerPerson` as " pcs/person"; "-" is shown iff none is truthy |
| DonationDetails.Row | src/pages/DonationDetails.jsx:281-309 | a table row shows the variant's label and persons and its serving cell; the chart plots its truthy persons as a number, and 0 when persons is falsy |
| DonationDetails.ViewConsume | src/pages/DonationDetails.jsx:265-330 | loading iff there is no data; the error iff the data carries a truthy one; otherwise the explanation, one row per variant in order iff `variants` is a non-empty array, and the note only when truthy |
| Dashboard.Filter | src/pages/Dashboard.jsx:26-28 | filtering never adds donations |
| Dashboard.FilterMembership | src/pages/Dashboard.jsx:26-28 | a donation is kept iff its lower-cased title or category contains the lower-cased search, a missing one counting as "" |
| Dashboard.FilterCount | src/pages/Dashboard.jsx:26-28 | a kept donation keeps its multiplicity, a dropped one disappears |
| Dashboard.EmptySearchKeepsAll | src/pages/Dashboard.jsx:26-28 | an empty search keeps every donation, in order |
| Dashboard.SortKey | src/pages/Dashboard.jsx:30-32 | a donation has a sort key iff its `createdAt` is a non-empty string, or its quantity is non-zero |
| Dashboard.StrLessTransitive | src/pages/Dashboard.jsx:33 | string comparison is transitive |
| Dashboard.StrLessTrichotomy | src/pages/Dashboard.jsx:33 | of two different strings one is smaller |
| Dashboard.BeforeTotal | src/pages/Dashboard.jsx:30-33 | the comparator orders any two donations one way or the other |
| Dashboard.BeforeTransitive | src/pages/Dashboard.jsx:30-33 | the comparator's order is transitive |
| Dashboard.Insert | src/pages/Dashboard.jsx:29-34 | inserting adds exactly the donation |
| Dashboard.InsertSorted | src/pages/Dashboard.jsx:29-34 | inserting into a sorted list keeps it sorted |
| Dashboard.SortPermutation | src/pages/Dashboard.jsx:29-34 | the sorted list is a permutation of its input |
| Dashboard.SortSorted | src/pages/Dashboard.jsx:29-34 | the sorted list is ordered by the comparator |
| Dashboard.VisibleSpec | src/pages/Dashboard.jsx:26-34 | the list shows exactly the kept donations with their multiplicities; those with a falsy key come after all others, and the rest are in ascending key order |
| CreateDonation.InitialForm | src/pages/CreateDonation.jsx:10-12 | the form starts with the nine fields, each empty |
| CreateDonation.CreateDonationPage.constructor | src/pages/CreateDonation.jsx:10-12 | the page starts with the initial form |
| CreateDonation.CreateDonationPage.HandleChange | src/pages/CreateDonation.jsx:15-18 | only the named field changes, to the typed value |
| CreateDonation.Coordinate | src/pages/CreateDonation.jsx:36-37 | a coordinate is sent as null iff the field is empty |
| CreateDonation.Payload | src/pages/CreateDonation.jsx:33-38 | the payload copies every form field, with `quantity` as its number, 0 when it reads as NaN, and each coordinate as its number, or null when empty |
| CreateDonation.PayloadQuantity | src/pages/CreateDonation.jsx:35 | an integer typed as quantity is submitted as that integer |
| CreateDonation.FailureText | src/pages/CreateDonation.jsx:43 | the failure notice prints the backend's truthy message, else the fixed text |
| CreateDonation.ClientEffects | src/services/api.js:24-31 | the client adds the redirect to `/login` exactly for a rejected call with a 401, and nothing else |
| CreateDonation.CreateDonationPage.HandleSubmit | src/pages/CreateDonation.jsx:30-45 | the payload is posted to `/donations`; success notifies and moves to `/my-donations`, failure shows the backend's message or the fixed one; the token is cleared exactly on a 401 |
| CreateDonation.AiName | src/pages/CreateDonation.jsx:48-53 | nothing is sent when title and description are both empty; otherwise the name is the title when non-empty, else the description |
| CreateDonation.CategoryChoice | src/pages/CreateDonation.jsx:55-61 | the category is the reply's truthy `category`, else the reply when it is a string, else none |
| CreateDonation.StringReplyIsCategory | src/pages/CreateDonation.jsx:57-58 | a string reply is always taken as the category |
| CreateDonation.CreateDonationPage.HandleAiCategorize | src/pages/CreateDonation.jsx:47-65 | with no text only an info notice and no request; otherwise the chosen category replaces the form's, or the form is unchanged with a notice; the token is cleared exactly when the call got a 401 |
| CreateDonation.DaysValue | src/pages/CreateDonation.jsx:75-90 | the day count read from a reply is a number, possibly NaN; which field it comes from is stated by the lemmas below |
| CreateDonation.ExpiryDays | src/pages/CreateDonation.jsx:92 | a day count exists iff the value read is a finite number, and then it is that number |
| CreateDonation.ParsePrinted | src/pages/CreateDonation.jsx:81 | an integer, printed and trimmed, parses back as itself |
| CreateDonation.ExpiryDaysFromExpiryDays | src/pages/CreateDonation.jsx:79-81 | a count in `expiryDays`, as text or number, is read back exactly, whatever later fields say |
| CreateDonation.ExpiryDaysFromDays | src/pages/CreateDonation.jsx:79-83 | when `expiryDays` is absent or null, a count in `days`, as text or number, is read, whatever the other fields say |
| CreateDonation.ExpiryDaysFromDaysToExpire | src/pages/CreateDonation.jsx:79-85 | `daysToExpire` is read when `expiryDays` and `days` are both absent or null, whatever the other fields say |
| CreateDonation.NullFieldIsAbsent | src/pages/CreateDonation.jsx:79-85 | a null `expiryDays`, `days` or `daysToExpire` gives the same value as the field being absent |
| CreateDonation.NullExpiryDaysSkipped | src/pages/CreateDonation.jsx:79-83 | `{expiryDays: null, days: 3}` gives 3 days |
| CreateDonation.ExpiryDaysFromBareReply | src/pages/CreateDonation.jsx:75-89 | a bare non-zero number or integer text reply is the count |
| CreateDonation.ExpiryDaysIgnoresUnit | src/pages/CreateDonation.jsx:81 | text after the number in `expiryDays` is ignored, so "3 days" is 3 |
| CreateDonation.ExpiryDaysRejects | src/pages/CreateDonation.jsx:75-89 | null, a bare 0 and an empty object give no count |
| CreateDonation.ExpiryDaysRejectsWords | src/pages/CreateDonation.jsx:79-81 | `expiryDays` text without digits gives no count |
| CreateDonation.CreateDonationPage.HandlePredictExpiry | src/pages/CreateDonation.jsx:67-109 | with no text only an info notice; only a finite count sets `expiryAt` and notifies, anything else reports an error and leaves the form unchanged; the token is cleared exactly when the call got a 401 |
| CreateDonation.Pad | src/pages/CreateDonation.jsx:98 | padding left-fills with '0' to at least two characters and ends with the number's digits |
| CreateDonation.PadValue | src/pages/CreateDonation.jsx:98 | the padded text still reads as the number, and is exactly two digits iff the number is below 100 |
| CreateDonation.ExpiryMessage | src/pages/CreateDonation.jsx:102 | the notice ends in "s" iff the count is not 1 |
| CreateDonation.ExpiryMessageCount | src/pages/CreateDonation.jsx:102 | the notice names the count it was given |
| MyRequests.CancelOfferedUnlessFinal | src/pages/MyRequests.jsx:70 | cancel is offered iff the status is neither CANCELLED nor APPROVED |
| MyRequests.CancelRequest | src/pages/MyRequests.jsx:27 | the cancel call is a body-less POST to `/requests/` + the id's text + `/cancel`, and the id's text is recovered from the path |
| MyRequests.DonorEmail | src/pages/MyRequests.jsx:37-39 | an address exists iff `createdBy.email` is truthy, and it is that value printed; without a truthy `createdBy` there is none |
| MyRequests.ContactDonor | src/pages/MyRequests.jsx:36-44 | no address gives the error notice and no navigation; otherwise a move to a `mailto:` link |
| MyRequests.SplitAtFirst | src/pages/MyRequests.jsx:44 | text before the first separator and text after it are recovered exactly |
| MyRequests.ContactDonorLink | src/pages/MyRequests.jsx:43-44 | the link reads back as the donor's address and the encoded subject "Request about donation: " + title |
| MyRequests.NoAddressNoNavigation | src/pages/MyRequests.jsx:37-41 | a missing donation, a missing `createdBy` or an empty address all end in the error notice |
| MyRequests.MyRequestsPage.constructor | src/pages/MyRequests.jsx:9-10 | the dialog starts closed with no id |
| MyRequests.MyRequestsPage.FetchRequests | src/pages/MyRequests.jsx:16-23 | the list becomes the reply body, or stays unchanged with an error notice; a 401 also clears the token |
| MyRequests.MyRequestsPage.OpenConfirm | src/pages/MyRequests.jsx:70-72 | clicking Cancel opens the dialog carrying that request's id |
| MyRequests.MyRequestsPage.Dismiss | src/pages/MyRequests.jsx:83-91 | dismissing closes the dialog and resets the id to null |
| MyRequests.MyRequestsPage.HandleCancel | src/pages/MyRequests.jsx:25-34 | success notifies, closes the dialog, resets the id, then sends the list fetch with the same token and adds its effects; failure shows the backend's message or the fixed one and leaves the dialog unchanged; the token is cleared exactly when the call that failed got a 401; a closed dialog never carries an id |
| Json.Get | src/pages/MyDonations.jsx:201 | a property read yields a value iff the value is an object holding the key, and that value is the field's |
| Json.Or | src/pages/MyDonations.jsx:201 | `a \|\| b` is `a` when truthy, else `b` |
| Json.ToNumberIntToString | src/pages/CreateDonation.jsx:35 | `Number` of a printed integer is that integer |
| Json.ParseIntIntToString | src/pages/CreateDonation.jsx:81 | `parseInt` of a printed integer followed by a non-digit is that integer |
| Text.TrimSpec | src/pages/MyDonations.jsx:96 | text trims to "" iff it is all white space; the result is the slice after the leading white space, and otherwise starts and ends with a non-space |
| Text.SplitJoin | src/pages/DonationDetails.jsx:33-36 | splitting words joined by a separator they do not contain gives the words back |
| Text.JoinSplit | src/pages/DonationDetails.jsx:33-36 | joining the pieces of a split with the separator gives the text back |
| Text.DigitsValueNatToString | src/pages/CreateDonation.jsx:98 | the printed digits of a number read back as the number |

## Left out

- Network transport, axios and the backend's own behaviour. Replies are inputs. Timeouts and network failures are error replies without a response.
- The token module `src/services/authToken` is not part of this model. The store is a single optional string, and its storage key and mechanism are not modelled.
- React rendering, hooks and JSX. Element keys, styles and the `LoadingButton` busy state are not modelled. Toasts and navigation are recorded as effect values only.
- Interleavings of asynchronous calls, including `logout` racing an in-flight profile fetch. Each handler runs to completion with its reply given.
- The request interceptor's error arm (`Promise.reject(error)` on a failing request set-up), which never fires for the configurations modelled.
- Axios header names are case-insensitive. The model keys headers by their exact spelling.
- Floating-point numbers. `Number` and `parseInt` are modelled on integers, and fractional, exponent, hexadecimal or `Infinity` text reads as NaN. The consume-ratio chart's arithmetic and the pie and bar chart components are left out.
- Unicode. White space and case mapping cover ASCII only. JavaScript compares strings by UTF-16 code unit, and the model compares characters by code point, which agree on the BMP.
- Date arithmetic and timezone formatting in `handlePredictExpiry`. The model's `toLocalInput` parameter stands for "now plus that many days, formatted". The calendar's `Date` conversion and `toDateString` comparison are also left out: `MyDonations.ExpiryDates` yields the raw `expiryAt` values.
- `encodeURIComponent`, which is the uninterpreted `encode` parameter.
- `handleImage` and `FileReader` in the create-donation page. Reading a file is I/O.
- Dashboard.VisibleSpec: the order of two donations with equal keys is not stated. The comparator returns -1 for equal keys, so the browser's sort leaves their order unspecified. The model sorts by insertion, and only sortedness and permutation are claimed.
- The donations list body is taken to be a list. A non-array body would make the source's `filter` throw, which the model does not capture.
- `humanize` on property names of `Object.prototype`, such as `constructor`, which the source's table lookup would return. The key is a string and never absent.
- Reading a property of `null` or `undefined` throws in the source, for example `donation.title` with no donation. The model's property read yields `None` there.
- The fetch and error notices of the Dashboard and DonationDetails pages, and the thin pages: AiTools, AiChat, RecipeGenerator, AdminPanel, VolunteerPanel, Requests, Login, Register, Home, Navbar, LoadingOverlay, and the map and calendar widgets. None of them holds logic beyond one comparison or a display.
- MyRequests.MyRequestsPage.OpenConfirm: an absent request id is stored as null, where the source stores `undefined`. The dialog opens either way. Confirming then posts to `/requests/null/cancel` in the model, but to `/requests/undefined/cancel` in the source.
