# Help (local business discovery) — a verified model of the front-end logic

Help is a Next.js front end for discovering local businesses. It has search, categories,
events, a wishlist, notifications and dashboards, over mock data with a mock sign-in. This
project models the logic behind those pages in Dafny and proves properties of it:

- the authentication context: the mock account table, `login`, `logout`, and the session
  restored from local storage;
- the login page's role redirect;
- the toast queue;
- the search page's filter-and-sort pipeline and its URL `category` parameter;
- the list pages' filters and list edits: notifications, wishlist, events, categories;
- the home page's search form, category shortcuts, testimonial rotation and live counters;
- the small state machines: the host-event wizard, the review tile's like/dislike counter,
  the learn-more tabs and accordion, and the business dashboard's guard and edit mode.

Each page's React state is a `class` whose fields are the `useState` variables. Each handler
is a method with a `modifies` clause, and the `ensures` of the method gives the new state.
What a handler computes — a filtered list, a toggled selection, an edited record — is a
function with its own contract. The lemmas beside it state what the page promises:
membership both ways, order kept, round trips, idempotence and monotone counters. List
filtering is JavaScript's `Array.prototype.filter`, modelled once in module `Seqs`.
JavaScript string helpers (`toLowerCase`, `includes`, `trim`) are modelled in module `Text`.

Ratings and distances are integer tenths (4.8 is 48, "0.8 km" is 8). Randomness (toast ids,
counter draws), `encodeURIComponent` and browser storage are parameters or fields of the model.

## Model

| member | source | states |
|---|---|---|
| Auth.MockUsersWellFormed | components/providers/auth-provider.tsx:24-93 | every mock account is filed under its own email, and exactly the business accounts carry a `businessId` |
| Auth.Authenticate | components/providers/auth-provider.tsx:114-129 | a login is accepted iff the email is in the table, the password is "password123" and no role was requested or the account has that role; the accepted record is the table's |
| Auth.AnyRoleWithoutRequest | components/providers/auth-provider.tsx:116-125 | without a requested role every table account logs in with the shared password, whatever its role |
| Auth.WrongPasswordRefused | components/providers/auth-provider.tsx:116-129 | any other password is refused for every email and role |
| Auth.RestoreAfterLogin | components/providers/auth-provider.tsx:99-106 | the record stored by a successful login is the user the next mount restores |
| Auth.RestoreAfterLogout | components/providers/auth-provider.tsx:132-135 | after logout the next mount restores nobody |
| Auth.AuthProvider.constructor | components/providers/auth-provider.tsx:95-97 | no user and loading, over the browser's storage |
| Auth.AuthProvider.Mount | components/providers/auth-provider.tsx:99-106 | a stored record becomes the user, storage is untouched, loading ends |
| Auth.AuthProvider.Login | components/providers/auth-provider.tsx:108-130 | returns true iff `Authenticate` accepts; on success the user and the stored record are the account, on failure nothing changes; loading ends |
| Auth.AuthProvider.Logout | components/providers/auth-provider.tsx:132-135 | no user, the stored record removed, everything else kept |
| Login.DashboardFor | app/login/page.tsx:42-49 | admin and business roles go to their own dashboard, any other role or a missing record to the user dashboard |
| Login.LoginPage.constructor | app/login/page.tsx:21-22 | not loading, password hidden |
| Login.LoginPage.HandleLogin | app/login/page.tsx:26-58 | navigates iff the credentials are accepted (no role requested), to the dashboard of the account's role; a welcome toast on success, a "Login Failed" toast and unchanged auth state on failure |
| Login.LoginPage.HandleRegister | app/login/page.tsx:60-72 | only an "Account created" toast; loading ends |
| Toasts.WithoutToast | components/ui/toast-provider.tsx:28-30 | `removeToast`: exactly the toasts with another id, in their order, with every copy of a kept entry and none of a dropped one; an unknown id changes nothing |
| Toasts.RemoveJustShown | components/ui/toast-provider.tsx:23-30 | removing the fresh id of a toast just shown gives back the queue before it |
| Toasts.Render | components/ui/toast-provider.tsx:35-44 | one rendered toast per entry, in queue order, carrying that entry's title, description, variant and duration, and closing that entry's id |
| Toasts.CloseRemovesOwnToast | components/ui/toast-provider.tsx:35-44 | with distinct ids, the i-th toast's close button removes exactly that entry and keeps the rest in order |
| Toasts.ToastProvider.constructor | components/ui/toast-provider.tsx:21 | the queue starts empty |
| Toasts.ToastProvider.Toast | components/ui/toast-provider.tsx:23-26 | the request, with its id, is appended |
| Toasts.ToastProvider.RemoveToast | components/ui/toast-provider.tsx:28-30 | the queue becomes `WithoutToast`; an unknown id leaves it unchanged |
| ReviewTile.Initial | components/ui/review-tile.tsx:34-37 | neither liked nor disliked, the counter at the review's likes: consistent |
| ReviewTile.Like | components/ui/review-tile.tsx:39-50 | the like flips, the counter moves by one in step, a dislike is cleared by a new like; keeps the counter consistent with the like |
| ReviewTile.Dislike | components/ui/review-tile.tsx:52-58 | the dislike flips, any like is withdrawn with its count; keeps the counter consistent |
| ReviewTile.LikeTwice | components/ui/review-tile.tsx:39-50 | two likes restore the state iff there was no dislike to clear |
| ReviewTile.DislikeTwice | components/ui/review-tile.tsx:52-58 | two dislikes restore the state iff there was no like to withdraw |
| ReviewTile.CounterBounds | components/ui/review-tile.tsx:37-58 | in a consistent state the counter is the review's likes or one more |
| ReviewTile.Truncated | components/ui/review-tile.tsx:68 | texts up to 200 characters are unchanged; longer ones become their first 200 characters and "..." |
| ReviewTile.TruncatedUnchanged | components/ui/review-tile.tsx:68 | the excerpt equals the text iff the text is short or already is such a cut |
| ReviewTile.CutTextHasToggle | components/ui/review-tile.tsx:110-123 | whenever less than the text is shown, the "Read more" button is there; short texts are always shown whole |
| ReviewTile.Stars | components/ui/review-tile.tsx:60-66 | five stars, star i filled iff i < rating |
| ReviewTile.StarsFilled | components/ui/review-tile.tsx:60-66 | filled stars come first, and their number is the rating rounded up, clamped to 0..5 |
| ReviewTile.ReviewTileState.constructor | components/ui/review-tile.tsx:33-37 | the initial consistent state |
| ReviewTile.ReviewTileState.HandleLike | components/ui/review-tile.tsx:39-50 | the state becomes `Like` of the old one and stays consistent |
| ReviewTile.ReviewTileState.HandleDislike | components/ui/review-tile.tsx:52-58 | the state becomes `Dislike` of the old one and stays consistent |
| ReviewTile.ReviewTileState.ToggleFullText | components/ui/review-tile.tsx:118 | the full-text flag flips |
| Search.MinRatingTenths | app/search/page.tsx:209-213 | a label parses exactly when it has the form "d.d+", and then to the value d.d in tenths (integer digit and tenths digit); any other string gives none |
| Search.RatingLabelsParse | app/search/page.tsx:158 | the three rating labels parse to 4.5, 4.0 and 3.5; "All" to nothing |
| Search.Filtered | app/search/page.tsx:187-217 | exactly the businesses passing the query, category, price and rating tests, in their original order, with every copy of a kept entry and none of a dropped one |
| Search.NoFilterKeepsAll | app/search/page.tsx:187-217 | with an empty query and every selection "All" nothing is filtered out |
| Search.Insert | app/search/page.tsx:220-233 | an insertion step adds exactly the new element |
| Search.InsertSorted | app/search/page.tsx:220-233 | inserting into a list sorted by the key keeps it sorted |
| Search.InsertionSort | app/search/page.tsx:220-233 | the sort is a permutation and sorted by the option's key |
| Search.InsertStable | app/search/page.tsx:220-233 | an insertion step keeps each key's elements in arrival order |
| Search.InsertionSortStable | app/search/page.tsx:220-233 | the sort is stable: for every key, the elements with that key keep their order (as `Array.prototype.sort` must) |
| Search.SortResults | app/search/page.tsx:219-233 | the `switch (sortBy)`: a permutation of its input, ordered by rating or review count descending or distance ascending, stable per key; any other option keeps the order |
| Search.SearchResults | app/search/page.tsx:186-236 | a permutation of the filtered list, ordered by rating or review count descending or distance ascending, stable per key; any other option keeps filter order |
| Search.CategoryCountMatchesFilter | app/search/page.tsx:362 | each sidebar count is the length of the list that selecting only that category shows |
| Search.FindLabel | app/search/page.tsx:156 | the first label whose lower-case form is the given one, or none when no label has it |
| Search.UrlCategoryAsWritten | app/search/page.tsx:181 | the URL rewrite as written: same length, first character upper-cased, every later character kept as it is in the URL |
| Search.CategoryFromParam | app/search/page.tsx:178-183 | corrected URL rewrite: a parameter that equals a sidebar label ignoring case selects that label; any other parameter is kept as written |
| Search.CategoriesDistinctIgnoringCase | app/search/page.tsx:156 | no two sidebar labels differ only in case |
| Search.CategoryParamRoundTrip | app/search/page.tsx:156 | every label, lower-cased into a URL, is read back as itself |
| Search.FindLabelFirst | app/search/page.tsx:156 | with distinct lower-case forms, the label at i is found for its own lower-case form |
| Search.BusinessCategories | app/search/page.tsx:17-154 | the categories of the eight mock businesses, in list order |
| Search.UnknownCategoryListsNothing | app/search/page.tsx:199-201 | a category no business has lists nothing |
| Search.LastOnlyCategoryListsIt | app/search/page.tsx:199-201 | a category only the last business has lists exactly that business |
| Search.NoBusinessInAutoservice | app/search/page.tsx:17-154 | no business has category "Auto service" (lower-case s) |
| Search.AutoServiceRewrite | app/search/page.tsx:181 | the rewrite as written turns "auto service" into "Auto service" |
| Search.AutoServiceLinkFindsNothing | app/search/page.tsx:178-201 | as written, the "auto service" link selects "Auto service" and lists nothing, though the sidebar counts 1 "Auto Service" business |
| Search.AutoServiceCount | app/search/page.tsx:362 | the sidebar shows 1 next to "Auto Service" |
| Search.AutoServiceOnlyLast | app/search/page.tsx:17-154 | only the last business is an "Auto Service" |
| Search.LowerAutoService | app/search/page.tsx:156 | the lower-case form of "Auto Service" is "auto service" |
| Search.AutoServiceLinkCorrected | app/search/page.tsx:178-201 | with the corrected rewrite the "auto service" link selects "Auto Service" and lists that business |
| Search.ClearedListsAll | app/search/page.tsx:505-511 | with no query and no selection every business is listed, in some order |
| Search.SearchPage.constructor | app/search/page.tsx:167-175 | initial state from the `q`, `location` and `category` URL parameters, with "" and "All" for missing or empty ones |
| Search.SearchPage.ApplyUrlCategory | app/search/page.tsx:178-183 | a non-empty `category` parameter selects the as-written rewrite of it (`UrlCategoryAsWritten`); an absent or empty one keeps the selection; nothing else changes |
| Search.SearchPage.SetSearchQuery | app/search/page.tsx:258 | the query is replaced |
| Search.SearchPage.SetLocationQuery | app/search/page.tsx:268 | the location box is replaced and the listed businesses do not change |
| Search.SearchPage.SelectCategory | app/search/page.tsx:352 | the category selection is replaced |
| Search.SearchPage.SelectPriceRange | app/search/page.tsx:379 | the price selection is replaced |
| Search.SearchPage.SelectRating | app/search/page.tsx:396-401 | a click on one of the offered rating labels replaces the rating selection |
| Search.SearchPage.SetSortBy | app/search/page.tsx:420 | the sort option is replaced |
| Search.SearchPage.ClearAll | app/search/page.tsx:332-336 | the three selections return to "All", the query stays, and the list is the query's results |
| Search.SearchPage.ClearSearch | app/search/page.tsx:505-511 | query and selections reset; the list is the unfiltered results |
| Notifications.FilteredNotifications | app/notifications/page.tsx:132-136 | exactly the entries of the selected type (or all) and, when unread-only is on, unread, in list order, with every copy of a kept entry and none of a dropped one |
| Notifications.UnreadCount | app/notifications/page.tsx:138 | the number of indices whose entry is unread; so at most the list length, and 0 iff every entry is read |
| Notifications.UnreadCountMonotone | app/notifications/page.tsx:138-149 | turning entries read never raises the count, and reading an unread one lowers it |
| Notifications.MarkedRead | app/notifications/page.tsx:140-146 | an entry is read afterwards iff it was read or has the id; no other field changes |
| Notifications.MarkedReadIdempotent | app/notifications/page.tsx:140-146 | marking the same id twice is marking it once |
| Notifications.MarkedReadUnknownId | app/notifications/page.tsx:140-146 | an id no entry has changes nothing |
| Notifications.MarkedReadLowersCount | app/notifications/page.tsx:138-146 | marking never raises the unread count, and lowers it when the id names an unread entry |
| Notifications.AllMarkedRead | app/notifications/page.tsx:148-149 | every entry read, no other field changed, unread count 0 |
| Notifications.WithoutNotification | app/notifications/page.tsx:156-157 | exactly the entries with another id, in order, with every copy of a kept entry and none of a dropped one; an unknown id changes nothing |
| Notifications.WithoutSelected | app/notifications/page.tsx:164-165 | exactly the entries whose id is not selected, in order, with every copy of a kept entry and none of a dropped one; an empty selection changes nothing |
| Notifications.DeleteOneSelected | app/notifications/page.tsx:156-165 | bulk-deleting a one-id selection is deleting that notification |
| Notifications.NotificationsPage.constructor | app/notifications/page.tsx:117-120 | the mock list, type "all", no selection, unread-only off |
| Notifications.NotificationsPage.MarkAsRead | app/notifications/page.tsx:140-146 | the list becomes `MarkedRead` and the unread count does not rise |
| Notifications.NotificationsPage.MarkAllAsRead | app/notifications/page.tsx:148-154 | every entry read and a success toast |
| Notifications.NotificationsPage.DeleteNotification | app/notifications/page.tsx:156-162 | the entry removed and a success toast |
| Notifications.NotificationsPage.DeleteSelected | app/notifications/page.tsx:164-171 | the selected entries removed, the selection emptied, and a toast counting the old selection |
| Notifications.NotificationsPage.SelectType | app/notifications/page.tsx:307 | the type filter is replaced |
| Notifications.NotificationsPage.SetShowOnlyUnread | app/notifications/page.tsx:331 | the unread-only flag is set |
| Notifications.NotificationsPage.SetChecked | app/notifications/page.tsx:364-369 | checking appends the id, unchecking removes every copy |
| Seqs.Checked | app/wishlist/page.tsx:344-350 | checking appends the id; unchecking removes it and keeps every other selected id |
| Seqs.CheckThenUncheck | app/wishlist/page.tsx:344-350 | checking then unchecking a box gives back the selection |
| Wishlist.FilteredItems | app/wishlist/page.tsx:97-106 | exactly the items matching the text (name, category or a tag) and the category select, in wishlist order, with every copy of a kept entry and none of a dropped one |
| Wishlist.EmptyQueryMatchesAll | app/wishlist/page.tsx:97-106 | with an empty query and "all", every item is shown |
| Wishlist.WithoutItem | app/wishlist/page.tsx:108-109 | exactly the items with another id, in order, with every copy of a kept entry and none of a dropped one; an unknown id changes nothing |
| Wishlist.WithoutSelected | app/wishlist/page.tsx:117-118 | exactly the items whose id is not selected, in order, with every copy of a kept entry and none of a dropped one; an empty selection changes nothing |
| Wishlist.WithoutSelectedStepwise | app/wishlist/page.tsx:108-118 | removing a selection is removing its ids one after the other |
| Wishlist.CategoriesStatBounds | app/wishlist/page.tsx:234 | the "Categories" stat is at most the item count, and 0 iff the list is empty |
| Wishlist.OpenCount | app/wishlist/page.tsx:246 | the "Open Now" stat is the number of indices whose item is open; so at most the item count, and equal to it iff every item is open |
| Wishlist.WishlistPage.constructor | app/wishlist/page.tsx:80-85 | the mock items, grid view, "recent", "all", empty query and selection |
| Wishlist.WishlistPage.RemoveFromWishlist | app/wishlist/page.tsx:108-115 | the item removed and a success toast |
| Wishlist.WishlistPage.RemoveSelectedItems | app/wishlist/page.tsx:117-125 | the selected items removed, the selection emptied, and a toast counting the old selection |
| Wishlist.WishlistPage.SetChecked | app/wishlist/page.tsx:344-350 | the selection becomes `Seqs.Checked` of the old one |
| Wishlist.WishlistPage.SetSearchQuery | app/wishlist/page.tsx:263 | the query is replaced |
| Wishlist.WishlistPage.SetFilterCategory | app/wishlist/page.tsx:273 | the category select is replaced |
| Wishlist.WishlistPage.SetSortBy | app/wishlist/page.tsx:284-293 | the sort select only records its value: the shown list does not change |
| Wishlist.WishlistPage.ClearFilters | app/wishlist/page.tsx:413-416 | query and category reset, and every saved item is shown |
| Events.FilteredEvents | app/events/page.tsx:142-151 | exactly the events matching the query and the chip, in list order, with every copy of a kept entry and none of a dropped one |
| Events.EventCategoriesOfEvents | app/events/page.tsx:41-135 | the four events' categories, in list order |
| Events.UnusedCategoryIsEmpty | app/events/page.tsx:142-151 | a chip no event has always shows the empty state |
| Events.NoEventIn | app/events/page.tsx:41-135 | no event's category starts with G or L |
| Events.ChipsWithoutEvents | app/events/page.tsx:31-39 | the "Gaming" and "Learning" chips always show "No Events Found" |
| Events.WithLikeToggled | app/events/page.tsx:153-155 | an id not liked is appended at the end; a liked id loses every copy while the other ids keep their order and their copies; the id is liked afterwards iff it was not; no duplicates appear |
| Events.ToggleTwiceRestores | app/events/page.tsx:153-155 | toggling an unliked id twice restores the list |
| Events.ToggleTwiceMovesToEnd | app/events/page.tsx:153-155 | toggling a liked id twice keeps the same set of ids but moves that id to the end |
| Events.EventsPage.constructor | app/events/page.tsx:137-140 | empty query, "All", "date", event "2" liked; no duplicate likes |
| Events.EventsPage.ToggleLike | app/events/page.tsx:153-155 | the likes become `WithLikeToggled` and stay duplicate-free |
| Events.EventsPage.SetSearchQuery | app/events/page.tsx:192 | the query is replaced |
| Events.EventsPage.SelectCategory | app/events/page.tsx:206 | the chip selection is replaced |
| HostEvent.WithField | app/events/host/page.tsx:89-91 | the named field takes the value; every other field, the tags and the images are kept |
| HostEvent.WithFieldOwnValue | app/events/host/page.tsx:89-91 | writing a field's own value back changes nothing |
| HostEvent.AddedTag | app/events/host/page.tsx:93-98 | a non-empty trimmed input not yet a tag is appended trimmed and the box is cleared; otherwise nothing changes; tags stay distinct, non-empty and trimmed |
| HostEvent.RemovedTag | app/events/host/page.tsx:100-102 | the tag goes, the others stay in order, the tag invariant is kept |
| HostEvent.AddThenRemove | app/events/host/page.tsx:93-102 | removing a tag just added gives the old tags back |
| HostEvent.AddTwiceAddsOnce | app/events/host/page.tsx:93-98 | a second add right after a successful one does nothing |
| HostEvent.StepsNumbered | app/events/host/page.tsx:132-137 | four steps, the i-th numbered i + 1 |
| HostEvent.HostEventPage.constructor | app/events/host/page.tsx:72-87 | step 1, no category, "Standard" plan, empty form and tag box |
| HostEvent.HostEventPage.CurrentStepInfo | app/events/host/page.tsx:180-181 | `steps[currentStep - 1]` exists and is the step with that number |
| HostEvent.HostEventPage.NextStep | app/events/host/page.tsx:120-124 | one step forward, stopping at 4 |
| HostEvent.HostEventPage.PrevStep | app/events/host/page.tsx:126-130 | one step back, stopping at 1 |
| HostEvent.HostEventPage.HandleInputChange | app/events/host/page.tsx:89-91 | the form becomes `WithField` of the old one |
| HostEvent.HostEventPage.ChooseCategory | app/events/host/page.tsx:288-291 | both the highlighted card and the form's category take the name |
| HostEvent.HostEventPage.ChoosePlan | app/events/host/page.tsx:317 | the plan is replaced |
| HostEvent.HostEventPage.SetNewTag | app/events/host/page.tsx:384 | the tag box is replaced |
| HostEvent.HostEventPage.AddTag | app/events/host/page.tsx:93-98 | tags and box become `AddedTag` of the old ones; the text fields and images are kept; the tag invariant holds |
| HostEvent.HostEventPage.RemoveTag | app/events/host/page.tsx:100-102 | only the tags change, to `RemovedTag` |
| HostEvent.HostEventPage.HandleSubmit | app/events/host/page.tsx:104-118 | without a user: to "/login" and no toast; with one: a success toast and to "/events" |
| CategoriesPage.FilteredCategories | app/categories/page.tsx:141-145 | exactly the categories whose name or description contains the query ignoring case, in order, with every copy of a kept entry and none of a dropped one |
| CategoriesPage.EmptyQueryShowsAll | app/categories/page.tsx:141-145 | an empty search shows all nine categories |
| CategoriesPage.CountBubble | app/categories/page.tsx:184 | the header bubble counts all nine categories, never fewer than the shown ones |
| CategoriesPage.CategoryLink | app/categories/page.tsx:214 | the link is "/search?category=" followed by the lower-cased name |
| CategoriesPage.CardFor | app/categories/page.tsx:214-216 | a card has the "Trending" badge iff its category is trending, and links to `CategoryLink` |
| CategoriesPage.CardLinkSelectsItsCategory | app/categories/page.tsx:214 | with the corrected search rewrite, a card whose name is a sidebar label selects that label |
| Home.NextTestimonial | app/page.tsx:150-151 | the next index is in range: the following one, or 0 after the last |
| Home.RotationCycles | app/page.tsx:103-151 | three ticks bring any testimonial back |
| Home.SearchRoute | app/page.tsx:168-173 | the form navigates iff the query is not all white space, to "/search?q=…&location=…" with both encoded |
| Home.PaddingDoesNotMatter | app/page.tsx:170 | spaces around the query do not change whether the form navigates |
| Home.CategoryRoute | app/page.tsx:175-177 | the shortcut's route is the categories page's link for that name |
| Home.ShownSuggestions | app/page.tsx:262 | the chips are the first four suggestions |
| Home.Tick | app/page.tsx:158-164 | each counter grows by 0-2, 0-4 and 0-1 |
| Home.CountersNeverDecrease | app/page.tsx:158-164 | over any run of ticks no counter decreases, and each grows by at most 2, 4 and 1 per tick |
| Home.HomePage.constructor | app/page.tsx:138-146 | empty boxes, testimonial 0, the initial counters |
| Home.HomePage.RotateTestimonial | app/page.tsx:150-151 | the index becomes `NextTestimonial` and stays in range |
| Home.HomePage.SelectTestimonial | app/page.tsx:483 | indicator i shows testimonial i |
| Home.HomePage.TickStats | app/page.tsx:158-164 | the counters become `Tick` of the old ones and none decreases |
| Home.HomePage.SetSearchQuery | app/page.tsx:228 | the query is replaced |
| Home.HomePage.SetLocationQuery | app/page.tsx:238 | the location is replaced |
| Home.HomePage.PickSuggestion | app/page.tsx:262-267 | a chip fills the search box with its suggestion |
| Home.HomePage.HandleSearch | app/page.tsx:168-173 | returns `SearchRoute` of the boxes: a route iff the query is not blank |
| Home.AutoServiceShortcut | app/page.tsx:73-80 | the "Auto Service" shortcut goes to "/search?category=auto service" |
| BusinessDashboard.GuardRoute | app/dashboard/business/page.tsx:89-93 | no redirect iff a business owner is signed in; otherwise to "/business/login" |
| BusinessDashboard.GuardAndRender | app/dashboard/business/page.tsx:89-97 | whenever the body is not rendered a redirect is issued; a signed-in non-business user sees the body while being redirected |
| BusinessDashboard.WithEdit | app/dashboard/business/page.tsx:301-366 | the edited field takes the value; every other field is kept |
| BusinessDashboard.LastEditWins | app/dashboard/business/page.tsx:301-366 | two edits of one field: the last one wins |
| BusinessDashboard.EditsCommute | app/dashboard/business/page.tsx:301-366 | edits of different fields commute |
| BusinessDashboard.BusinessDashboardPage.constructor | app/dashboard/business/page.tsx:85-87 | "overview" tab, the mock business, not editing |
| BusinessDashboard.BusinessDashboardPage.SelectTab | app/dashboard/business/page.tsx:198 | the tab is replaced |
| BusinessDashboard.BusinessDashboardPage.ToggleEditing | app/dashboard/business/page.tsx:284 | edit mode flips |
| BusinessDashboard.BusinessDashboardPage.EditBusinessField | app/dashboard/business/page.tsx:301-366 | while editing the field takes the value; a disabled input changes nothing |
| BusinessDashboard.BusinessDashboardPage.Cancel | app/dashboard/business/page.tsx:425 | edit mode ends and the edits so far stay |
| BusinessDashboard.BusinessDashboardPage.SaveBusinessInfo | app/dashboard/business/page.tsx:107-113 | edit mode ends with a toast; the data is unchanged |
| BusinessDashboard.BusinessDashboardPage.ReviewResponse | app/dashboard/business/page.tsx:115-120 | only a toast |
| LearnMore.ToggledFaq | app/learn-more/page.tsx:540 | clicking the open question closes it, any other click opens the clicked one |
| LearnMore.ClickOpensAtMostClicked | app/learn-more/page.tsx:540 | after a click only the clicked answer can be open, and it is open iff it was closed |
| LearnMore.ClickTwice | app/learn-more/page.tsx:540 | two clicks on one question restore the accordion iff it was closed or showed that question |
| LearnMore.OneBlockPerTab | app/learn-more/page.tsx:133-138 | each tab id matches exactly one content block; any other value matches none |
| LearnMore.LearnMorePage.constructor | app/learn-more/page.tsx:130-131 | the "features" tab, no answer open |
| LearnMore.LearnMorePage.SelectTab | app/learn-more/page.tsx:208 | the tab is replaced by a real tab id |
| LearnMore.LearnMorePage.ClickFaq | app/learn-more/page.tsx:540 | the accordion becomes `ToggledFaq` and shows at most one FAQ |

## Left out

- Rendering, animation (framer-motion), icons, class names and layout: they carry no state.
- Timers: the login delay, the register timeout and the home page's intervals are each one atomic step. Interval cleanup is not modelled.
- `isLoading` while a login is in flight: `login` is one atomic step, so the intermediate `true` is not observable.
- Local storage holds the stored user as a record, not as JSON text. `JSON.parse`/`JSON.stringify` and malformed stored text are not modelled.
- `Math.random` (toast ids, counter draws) is a parameter. Ids are not checked to be fresh except where a lemma requires it.
- `encodeURIComponent` is a parameter of `Home.SearchRoute`, and URL decoding in `useSearchParams` is not modelled.
- Floating point: ratings and distances are integer tenths, so the average-rating stat of the wishlist (a float mean with `toFixed(1)`) is not modelled.
- String operations: `toLowerCase`/`toUpperCase` map ASCII letters only; other letters are unchanged. `trim` uses the ECMAScript white-space and line-terminator characters. Length counts Unicode scalar values, not UTF-16 code units, so `ReviewTile.Truncated` can cut at a different place in texts outside the Basic Multilingual Plane.
- `Array.prototype.sort` is modelled as a stable insertion sort on a value, not an in-place sort; the comparator's floating subtraction is integer comparison on tenths.
- The auth guards of the notifications and wishlist pages (`if (!user) router.push("/login")`) are not modelled. Only the business dashboard's guard is.
- The share and export toasts of the wishlist, the events page's `sortBy` (never read) and the notification type counts in the stats cards are not modelled.
- `HostEvent.HostEventPage.HandleInputChange` takes one of the text fields of the form. A call with any other field name, which would add a new key to the record, is not modelled.
- The business login page, the admin and user dashboards, the navbar, the business and event detail pages and the custom toast component are not part of this model.
- Auth.Authenticate: only the table's own keys are modelled. The source looks the email up with `mockUsers[email]`, which also finds properties every object inherits (such as "constructor" or "__proto__"); such an email with "password123" and no role would log in a value that is not an account.
- Search.MinRatingTenths: only labels of the form "d.d+" are parsed, the form of every label the rating buttons offer. `parseFloat` of other strings (such as "4+" or "4.55+") is not modelled, and `SelectRating` accepts only the offered labels.
- Events.ToggleTwiceRestores: stated only for an id that was not liked; for a liked id the list is not restored, and `Events.ToggleTwiceMovesToEnd` states what happens instead.

## Findings

| source | as written | input that shows it | evidently intended | confidence | as-written member | corrected member |
|---|---|---|---|---|---|---|
| app/search/page.tsx:181 | the URL `category` is turned into a selection by upper-casing only its first character, while the links that reach it (app/page.tsx:176, app/categories/page.tsx:214) lower-case the whole name | the "Auto Service" shortcut sends `auto service`, which becomes "Auto service"; no business has that category, so the list is empty although the sidebar counts 1 "Auto Service" business | the parameter selects the sidebar label it lower-cases from ("Auto Service"), matching case-insensitively | not executed | Search.AutoServiceLinkFindsNothing | Search.AutoServiceLinkCorrected |
