# capstone-frontend, modelled in Dafny

This project models the decision logic of the capstone-frontend ticketing single-page application, a React front end for browsing events, choosing seats, paying and running an organizer or admin back office. The parts modelled are the ones that decide something:

- The session store of `ApiProvider`: the signed-in user, the profile-loading flag, the auth transitions, and the wrappers that turn each response into a uniform value.
- The role-dependent navigation: the Navbar links, the highlight rule, and the post-login redirect.
- The route table of `App` and the roles each guarded subtree admits.
- The organizer sidebar toggle.
- The ordered form checks of the login, sign-up, event, venue, category and media forms.
- The seat-selection cart and its price.
- The payment-verification state machine.
- The list filters and the remove-by-id of the delete handlers.
- The status, badge and label classifiers of the tables.
- The string helpers that build image URLs, slugs, shortened names and fallback labels.

Each core source file is one module. Pure decision code is modelled as datatypes, functions and lemmas. A component whose handlers update React state becomes a `class` with one field per piece of state, and each handler is a `method` whose `modifies` clause names that state. Three modules are shared:

- `Base`: optional values, and the outcome of an HTTP call. The outcome is either the body of a 2xx answer or the failure axios throws: an HTTP status with the server's `message`, or no answer at all.
- `Text`: the JavaScript string built-ins, over ASCII.
- `Seqs`: `Array.prototype.filter`, and the subsequence relation it guarantees.

Every HTTP call is an input: a handler that calls the server takes the answer as a parameter. A refetch that a handler starts is its own method. The current time `now` is an integer parameter, and so is `window.confirm`'s answer.

The route table is written out as data and matched the way react-router matches by default:

- segment by segment;
- ignoring ASCII case;
- ignoring trailing slashes;
- a `:param` segment matches any one non-empty segment.

A path with an empty segment before its trailing slashes, such as `//events` or `/organizer//create-event`, matches no route, and neither does a path without a leading `/`. Such paths land on `/` (`AppRoutes.EmptySegmentsFallBack`).

The model takes the first matching route in JSX order. react-router ranks matching routes by specificity instead. No path matches two routes of this table, so both rules pick the same route (`AppRoutes.MatchingRouteRenders`).

With the table written out this way, the model can state where each link of the pages leads. Several links fall through to the catch-all redirect to `/`:

- the Navbar's `/my-orders` and `/admin/admin-orders`;
- the organizer sidebar's `event-list`, `venue-list` and `category-list`;
- the home page's venue cards and "View All" links;
- the `/media` links.

The model reproduces these dead links as they are written.

The admin category and venue pages catch a failed list fetch and toast an error. The context's `getCategories` and `getVenues` already catch every failure, so those toasts never appear, and the model states that (`AdminCategories.AdminCategoriesPage.FetchCategories`, `AdminVenues.AdminVenuesPage.FetchVenues`).

## Model

A function that only computes a value has no row of its own when a lemma states its meaning. That lemma's row, usually named `…Cases` or `…Spec`, names the function and cites the lines it models. Examples are `AppRoutes.Resolve` (see `AppRoutes.ResolveSpec`), `EventList.EventStatus` (see `EventList.EventStatusCases`) and `AdminCategories.FilteredCategories` (see `AdminCategories.FilteredCategoriesSpec`).

| member | source | states |
|---|---|---|
| Base.ServerMessageOr | src/pages/organizerPage/UpdateVenue.tsx:99-103 | `err.response?.data?.message \|\| fallback`: a network error gives the fallback, an error response with a non-empty message gives that message, and nothing else can come out. |
| EventContext.UserAfterAuth | src/context/EventContext.tsx:98-112 | After a login or register response the user is the response's user when it carries one, and the current user otherwise. |
| EventContext.AuthKeepsSignedIn | src/context/EventContext.tsx:102 | A login or register response never signs the current user out. Related lines: 110. |
| EventContext.UserAfterProfile | src/context/EventContext.tsx:458-466 | A `success` body replaces the user, a 401/403 clears it, and the user changes only in those two cases. |
| EventContext.ProfileKeepsOnOtherOutcomes | src/context/EventContext.tsx:458-466 | Any other profile outcome (another status, a network error, `success: false`) leaves the user as it was. |
| EventContext.SessionStore.constructor | src/context/EventContext.tsx:93-95 | Initially no user, sidebar hidden, profile loading. |
| EventContext.SessionStore.Login | src/context/EventContext.tsx:98-104 | Returns the response unchanged; the new user is `UserAfterAuth`; the two flags are untouched. |
| EventContext.SessionStore.Register | src/context/EventContext.tsx:106-112 | Same contract as `Login`. |
| EventContext.SessionStore.Logout | src/context/EventContext.tsx:114-122 | The user is cleared only when the POST succeeded; a failed POST leaves it and the failure reaches the caller. |
| EventContext.SessionStore.BeginProfileLoad | src/context/EventContext.tsx:454 | The loading flag is raised before the call, and nothing else changes. |
| EventContext.SessionStore.FinishProfileLoad | src/context/EventContext.tsx:458-469 | On every outcome the loading flag ends false and the user is `UserAfterProfile`. |
| EventContext.SessionStore.GetUserProfile | src/context/EventContext.tsx:452-470 | The whole call: loading false afterwards on every path, the user as `UserAfterProfile` says, the sidebar untouched. |
| EventContext.EventsOrEmpty | src/context/EventContext.tsx:214-225 | The result is non-empty only when the body reports success and holds that array; a success body with an array gives exactly that array; every failure gives `[]`. Related lines: 239-265. |
| EventContext.BodyOr | src/context/EventContext.tsx:227-237 | A 2xx answer gives its body and any failure gives the fixed fallback body, so nothing is thrown. Related lines: 304-315, 399-409. |
| EventContext.ListOrUnsuccessful | src/context/EventContext.tsx:125-134 | A failure becomes `success: false` with an empty list, and a 2xx body is passed through. Related lines: 171-180. |
| EventContext.ItemsIfSuccess | src/context/EventContext.tsx:333-338 | A failure is passed to the caller unchanged; a success body gives its list; a non-empty result comes only from a success body. Related lines: 411-416. |
| EventContext.UseEventContext | src/context/EventContext.tsx:529-535 | Returns the context exactly when a provider is present, and otherwise throws the fixed message. |
| Navbar.ActiveOnlyAtSegmentBoundary | src/components/Navbar.tsx:14-15 | A link that is active on a path other than its own is a proper prefix of it followed by `/`, so `/events` is not active on `/events2`. |
| Navbar.HomeActiveOnlyAtRoot | src/components/Navbar.tsx:14-15 | Home (`/`) is active on exactly `/` among paths that do not start with `//`. |
| Navbar.NavLinks | src/components/Navbar.tsx:18-56 | No user: the four public links in order. Organizer: exactly the four organizer links. Admin: exactly the four admin links. Any other signed-in user, with no role or an unknown one: the public links followed by My Orders. |
| Navbar.Targets | src/components/Navbar.tsx:94-97 | The key of each rendered link is its target, position by position. |
| Navbar.NavLinkTargetsDistinct | src/components/Navbar.tsx:18-42 | For every user, the targets of the derived list are pairwise distinct. Related lines: 94-97. |
| Navbar.StaffSeeNoPublicLinks | src/components/Navbar.tsx:47-51 | An organizer or admin sees no public link and no My Orders link. |
| Navbar.NavbarView.constructor | src/components/Navbar.tsx:10 | The mobile menu starts closed. |
| Navbar.NavbarView.ToggleMenu | src/components/Navbar.tsx:159 | The menu button flips the open flag. |
| Navbar.NavbarView.CloseMenu | src/components/Navbar.tsx:182 | Following a menu link closes the menu. Related lines: 220, 227. |
| Navbar.NavbarView.HandleLogout | src/components/Navbar.tsx:58-68 | Whatever the POST returns, the user ends null, the page goes to `/` and the menu is closed; the store's flags are untouched. |
| Navbar.MyOrdersLinkFallsBack | src/components/Navbar.tsx:26 | `/my-orders` matches no route (the table has `/my-order`), so it lands on `/`. |
| Navbar.AdminOrdersLinkFallsBack | src/components/Navbar.tsx:41 | `/admin/admin-orders` matches no route (the admin subtree has `orders`), so it lands on `/`. |
| AppRoutes.RoleSetsNested | src/App.tsx:89 | The admin set is inside the organizer set, which is inside the `/my-order` set; `admin` is in all three and `user` in neither guarded subtree. Related lines: 94, 117. |
| AppRoutes.Segments | src/App.tsx:68-131 | A path splits into non-empty segments without `/`. On a path the router can read (`AppRoutes.Readable`), these are its segments with the trailing slashes dropped. |
| AppRoutes.SegmentsOfPath | src/App.tsx:68-131 | Splitting a path built from segments gives those segments back, and the router can read that path. |
| AppRoutes.TrailingSlashIgnored | src/App.tsx:68-131 | A trailing slash changes nothing: a path and the same path followed by `/` resolve alike. |
| AppRoutes.EmptySegmentsFallBack | src/App.tsx:68-131 | An empty segment before the end is not skipped: `//events` and `/organizer//create-event` match no route and land on `/`. |
| AppRoutes.FirstMatch | src/App.tsx:68-131 | The index found matches, and no earlier route does; None means no route matches. |
| AppRoutes.ResolveSpec | src/App.tsx:68-131 | A path redirects, always to `/`, exactly when it is unreadable or no route of the table matches it. Otherwise it renders the page and guard of the first route that matches, as the router picks the first match in JSX order. |
| AppRoutes.PublicRoutesOutsideSubtrees | src/App.tsx:70-86 | Every page under `UserLayout` has no guard, and its first segment is outside the three guarded subtrees. |
| AppRoutes.GuardedRoutesInSubtrees | src/App.tsx:89-127 | Every route of `/my-order`, `/organizer` and `/admin` starts with that segment and carries that subtree's role set. |
| AppRoutes.GuardBySubtree | src/App.tsx:89-127 | Whatever page a path renders, its guard is determined by the first segment alone: `{user, organizer, admin}` for `my-order`, `{organizer, admin}` for `organizer`, `{admin}` for `admin`, none otherwise. |
| AppRoutes.FallsBack | src/App.tsx:130 | A path that matches no route redirects to `/`. |
| AppRoutes.ResolvesInPublic | src/App.tsx:70-86 | A path that first matches public route `i` renders that page with no guard. |
| AppRoutes.ResolvesInOrganizer | src/App.tsx:94-114 | A path that first matches organizer route `i` renders that page behind `{organizer, admin}`. |
| AppRoutes.ResolvesInAdmin | src/App.tsx:117-127 | A path that first matches admin route `i` renders that page behind `{admin}`. |
| AppRoutes.NoTwoRoutesMatch | src/App.tsx:68-131 | No path is matched by two routes of the table: any two patterns differ in length or hold different literals at the same position, whatever the case of the path. |
| AppRoutes.FirstMatchNoLater | src/App.tsx:68-131 | When a route matches, some route is the first match, and it sits at or before that route. |
| AppRoutes.OnlyMatchIsFirst | src/App.tsx:68-131 | On segments, a route that matches is the first match of the table: no earlier route matches the same segments. |
| AppRoutes.MatchingRouteRenders | src/App.tsx:68-131 | Any route that matches a readable path is the one that renders it. So taking the first match in JSX order and ranking the matches as react-router does pick the same page. |
| UserLogin.LoginFormError | src/pages/userPage/UserLogin.tsx:20-21 | The form may be sent exactly when both fields are non-empty; an empty email gives "Email required" before the password is looked at; otherwise an empty password gives "Password required". |
| UserLogin.NormalizeEmail | src/pages/userPage/UserLogin.tsx:25 | The email sent has no upper-case letter and neither starts nor ends with whitespace. |
| UserLogin.NormalizeEmailIdempotent | src/pages/userPage/UserLogin.tsx:25 | Normalising a normalised email changes nothing. |
| UserLogin.RedirectFor | src/pages/userPage/UserLogin.tsx:27-32 | `organizer` goes to `/organizer`, `admin` to `/admin`, any other or missing role to `/`. Related lines: 61-64. |
| UserLogin.OrganizerRedirectAdmitted | src/pages/userPage/UserLogin.tsx:29 | The organizer redirect renders the event list behind a guard that admits organizers. |
| UserLogin.AdminRedirectAdmitted | src/pages/userPage/UserLogin.tsx:30 | The admin redirect renders the dashboard behind a guard that admits admins. |
| UserLogin.OtherRedirectAdmitted | src/pages/userPage/UserLogin.tsx:31 | Every other role lands on the unguarded home page. |
| UserLogin.StripTrailingSlash | src/pages/userPage/UserLogin.tsx:42 | Exactly one trailing `/` is removed when present, and the base is unchanged otherwise. |
| UserLogin.GoogleRedirectIgnoresTrailingSlash | src/pages/userPage/UserLogin.tsx:42 | A base with or without one trailing slash yields the same Google address. |
| UserLogin.LoginForm.constructor | src/pages/userPage/UserLogin.tsx:10-13 | The form starts empty, with no message and not loading. |
| UserLogin.LoginForm.HandleSubmit | src/pages/userPage/UserLogin.tsx:16-38 | A failed check sets its message and sends nothing. Otherwise the normalised email and the unchanged password are sent, and the user is updated as `login` does. A body with a user navigates by role. A failure shows the server message or "Server error. Try later!". Loading ends false on every path. |
| UserLogin.HandleGoogleCredential | src/pages/userPage/UserLogin.tsx:50-69 | A body with a user signs that user in and navigates by role; any other body or failure changes nothing and navigates nowhere. |
| Organizer.Toggle | src/pages/organizerPage/Organizer.tsx:54-58 | The index is open afterwards exactly when it was closed before, and no other index changes. |
| Organizer.ToggleKeepsDistinct | src/pages/organizerPage/Organizer.tsx:55-57 | Toggling a list without duplicates gives a list without duplicates. |
| Organizer.ToggleTwice | src/pages/organizerPage/Organizer.tsx:55-57 | Toggling the same index twice restores the set of open groups, and the very list when the group was closed. |
| Organizer.SidebarState.constructor | src/pages/organizerPage/Organizer.tsx:19 | No group starts open. |
| Organizer.SidebarState.HandleShowChildren | src/pages/organizerPage/Organizer.tsx:54-58 | The list becomes `Toggle` of the old one and stays free of duplicates. |
| Organizer.ToggleSidebar | src/pages/organizerPage/Organizer.tsx:85 | The shared sidebar flag flips; the user and the loading flag are untouched. Related lines: 96, 117. |
| Organizer.SidebarShape | src/pages/organizerPage/Organizer.tsx:27-52 | Three groups of two links each, with six distinct targets. |
| Organizer.LogoutNavigation | src/pages/organizerPage/Organizer.tsx:60-73 | The page navigates, always to `/login`, exactly when the response reports success; the user is never cleared here. |
| Organizer.DeadSidebarLinks | src/pages/organizerPage/Organizer.tsx:33 | `venue-list`, `category-list`, `event-list` and `event-analytics` under `/organizer` match no route, so they land on `/`. Related lines: 41, 49, 97. |
| EditCategory.RoleRedirect | src/pages/organizerPage/EditCategory.tsx:48-52 | Redirects, always to `/organizer`, exactly when a user is signed in whose role is not `admin`; no user means no redirect. |
| EditCategory.OrganizerBouncedFromAdmittedRoute | src/pages/organizerPage/EditCategory.tsx:48-52 | An organizer is sent away although `/organizer/edit-category/:id` renders this page behind a guard that admits organizers. |
| EditCategory.PickCategory | src/pages/organizerPage/EditCategory.tsx:66 | `category` when the body has it, `data` otherwise. |
| EditCategory.CategoryPayloadFor | src/pages/organizerPage/EditCategory.tsx:103-116 | Nothing may be sent exactly when the name is all whitespace; otherwise the payload carries the trimmed, non-empty name and the selected image, if any. |
| EditCategory.UpdateErrorMessage | src/pages/organizerPage/EditCategory.tsx:132-142 | An error response shows its message, or "Failed to update category" without one; no response shows "Server not responding. Please try again later.". |
| EditCategory.EditCategoryPage.constructor | src/pages/organizerPage/EditCategory.tsx:36-46 | Loading, not updating, empty message, empty name, no image, no preview, no current image. |
| EditCategory.EditCategoryPage.FetchCategory | src/pages/organizerPage/EditCategory.tsx:54-88 | No id: nothing changes. A success body with a category fills the name, and the current image when the category has one. Other bodies change nothing. A failure toasts "Failed to load category data" and navigates to `/categories`, keeping the name and the current image; nothing else toasts. Loading ends false. |
| EditCategory.EditCategoryPage.SetName | src/pages/organizerPage/EditCategory.tsx:90-95 | Only the name changes. |
| EditCategory.EditCategoryPage.SelectImage | src/pages/organizerPage/EditCategory.tsx:148-160 | The file and its preview are set together; nothing else changes. |
| EditCategory.EditCategoryPage.RemoveImage | src/pages/organizerPage/EditCategory.tsx:162-166 | The selected image, the preview and the current image are cleared together. |
| EditCategory.EditCategoryPage.HandleSubmit | src/pages/organizerPage/EditCategory.tsx:97-146 | No id: nothing happens. A blank name sends nothing and toasts "Category name is required". Otherwise `CategoryPayloadFor` is sent. Success toasts the body's message and navigates to `/organizer/category-list`. A failure sets `UpdateErrorMessage` and toasts the same text. Updating ends false. |
| EditCategory.SavedCategoryLandsOnRoot | src/pages/organizerPage/EditCategory.tsx:126 | `/organizer/category-list` matches no route, so a successful save lands on `/`. |
| SeatSelection.GenerateSeats | src/pages/userPage/paymentPage/SeatSelectionPage.tsx:28-43 | The nested loops produce 48 seats, and seat `k` is row `k / 12`, number `k % 12 + 1`, id row+number, price 1200, with the status the checks give. |
| SeatSelection.GridIdsDistinct | src/pages/userPage/paymentPage/SeatSelectionPage.tsx:38 | Two different grid positions have different ids. |
| SeatSelection.GridStatus | src/pages/userPage/paymentPage/SeatSelectionPage.tsx:34-37 | A seat is booked exactly when it is A1, A2, A6, A7, A11 or A12; it is reserved exactly when it is B5 or C8; no generated seat is selected. |
| SeatSelection.FortyAvailable | src/pages/userPage/paymentPage/SeatSelectionPage.tsx:34-37 | Exactly 40 of the 48 seats are available. |
| SeatSelection.ToggleFlipsOnlyThatSeat | src/pages/userPage/paymentPage/SeatSelectionPage.tsx:47-55 | A seat that is not available leaves the selection unchanged. An available seat's id becomes selected exactly when it was not. No other id changes. |
| SeatSelection.ToggleKeepsCart | src/pages/userPage/paymentPage/SeatSelectionPage.tsx:47-55 | After a toggle, the selected ids stay pairwise distinct, and each selected entry is an available grid seat marked selected. |
| SeatSelection.ToggleTwiceRestores | src/pages/userPage/paymentPage/SeatSelectionPage.tsx:50-54 | Clicking an unselected available seat twice gives back exactly the same selection, in the same order. |
| SeatSelection.SubtotalPerSeat | src/pages/userPage/paymentPage/SeatSelectionPage.tsx:57 | When every seat costs 1200, the `reduce` sum is 1200 times the number of seats. |
| SeatSelection.PanelPrices | src/pages/userPage/paymentPage/SeatSelectionPage.tsx:120-154 | The priced panel and its "Proceed to Payment" button (to `/payment`) appear exactly when a seat is selected, and the total shown is 1200 per seat plus the 50 ETB fee. |
| SeatSelection.MapIgnoresSelection | src/pages/userPage/paymentPage/SeatSelectionPage.tsx:77-91 | As written, the map draws the generated grid, so a seat just added to the selection is still drawn as available. |
| SeatSelection.ShownStatusFollowsSelection | src/pages/userPage/paymentPage/SeatSelectionPage.tsx:77-91 | With the corrected map, a seat shows as selected exactly when it is in the selection, only available seats can show so, and the disabled buttons are exactly the booked and reserved seats. |
| SeatSelection.SeatPicker.constructor | src/pages/userPage/paymentPage/SeatSelectionPage.tsx:15 | The selection starts empty and valid. |
| SeatSelection.SeatPicker.ToggleSeat | src/pages/userPage/paymentPage/SeatSelectionPage.tsx:47-55 | The selection becomes `ToggleSelection` of the old one and stays a valid selection. |
| VerifyPayment.TxRef | src/pages/userPage/paymentPage/VerifyPaymentPage.tsx:15 | A reference exists exactly when `trx_ref` or `tx_ref` is non-empty; `trx_ref` wins when it is non-empty; the reference used is never empty. |
| VerifyPayment.VerifyOutcome | src/pages/userPage/paymentPage/VerifyPaymentPage.tsx:24-38 | The page succeeds exactly when a 2xx body has `status === 'success'` or a truthy `success`, and otherwise fails. A 2xx body that is not a success gives the default message; an error response gives the server message or the default. |
| VerifyPayment.VerifyPaymentPage.constructor | src/pages/userPage/paymentPage/VerifyPaymentPage.tsx:11-12 | The page starts in `verifying` with "Verifying your payment...". |
| VerifyPayment.VerifyPaymentPage.RunEffect | src/pages/userPage/paymentPage/VerifyPaymentPage.tsx:14-42 | The reference given to `verify` is `TxRef`. With none, the page fails with "Invalid transaction reference.", sends nothing and toasts nothing. Otherwise the state is `VerifyOutcome`, success toasts "Payment successful!" and failure "Payment failed or was cancelled.". Navigation to `/ticket-success` happens exactly on success. The page never returns to `verifying`. |
| CreateEvent.QuantityRule | src/pages/organizerPage/CreateEvent.tsx:181-194 | A quantity written as a positive number passes. "0" and any negated number are rejected. |
| CreateEvent.ValidationIsFirstFailure | src/pages/organizerPage/CreateEvent.tsx:160-196 | The validation result is None exactly when none of the seven checks fails. Otherwise it is the message of the first failing check, in the source's order. |
| CreateEvent.ValidIff | src/pages/organizerPage/CreateEvent.tsx:160-196 | The form passes exactly when all of these hold: the title is not blank, a start date, normal price, venue and category are given, and neither quantity is rejected. |
| CreateEvent.BlankTitleFirst | src/pages/organizerPage/CreateEvent.tsx:161-164 | An all-whitespace title is reported first, whatever else is wrong. |
| CreateEvent.OptionalEntriesIgnored | src/pages/organizerPage/CreateEvent.tsx:160-196 | Validation never looks at the description, the end date or the VIP price. |
| CreateEvent.FieldPathOf | src/pages/organizerPage/CreateEvent.tsx:119-120 | A name without a dot is a top-level field. |
| CreateEvent.FieldPathOfDotted | src/pages/organizerPage/CreateEvent.tsx:119-120 | `parent.child` splits back into `parent` and `child`. |
| CreateEvent.NestedChangeTouchesOneEntry | src/pages/organizerPage/CreateEvent.tsx:119-127 | A change to `normalPrice.*` or `vipPrice.*` sets only that nested entry. The other entry of the pair, the other price and every top-level field keep their values. |
| CreateEvent.TopLevelChange | src/pages/organizerPage/CreateEvent.tsx:128-133 | The checkbox stores `checked`. A text input stores its value under its name. |
| CreateEvent.QuantityJson | src/pages/organizerPage/CreateEvent.tsx:223-225 | An absent quantity is sent as undefined exactly when the text is empty. A number that is sent is the `parseInt` of the text. |
| CreateEvent.PayloadKeysDistinct | src/pages/organizerPage/CreateEvent.tsx:204-240 | No key is appended twice. |
| CreateEvent.PayloadCarriesForm | src/pages/organizerPage/CreateEvent.tsx:204-240 | The request's keys are in the source's order, with `endDate` only when it is set and `image` only when a file is chosen. Each entry holds the form's value under its key. |
| CreateEvent.AppendEntries | src/pages/organizerPage/CreateEvent.tsx:204-240 | The appends, done one at a time, build exactly the payload. |
| CreateEvent.SentQuantitiesPositive | src/pages/organizerPage/CreateEvent.tsx:181-194 | In a form that passes, both quantities are present, and each one read as a number is positive. |
| CreateEvent.CreatedEventLandsOnRoot | src/pages/organizerPage/CreateEvent.tsx:245 | `/organizer/event-list` is not a route, so the router lands on `/`. |
| CreateEvent.CreateEventPage.constructor | src/pages/organizerPage/CreateEvent.tsx:57-80 | The page starts with an empty form, no image, not loading and no message. |
| CreateEvent.CreateEventPage.HandleChange | src/pages/organizerPage/CreateEvent.tsx:114-135 | The form becomes `ApplyChange` of the event. Nothing else changes. |
| CreateEvent.CreateEventPage.HandleImageChange | src/pages/organizerPage/CreateEvent.tsx:137-144 | A chosen file becomes the image. An empty selection keeps the old one. |
| CreateEvent.CreateEventPage.HandleDrop | src/pages/organizerPage/CreateEvent.tsx:146-154 | A dropped file replaces the image only when its type starts with `image/`. |
| CreateEvent.CreateEventPage.ValidateForm | src/pages/organizerPage/CreateEvent.tsx:160-196 | Returns true exactly when the validation result is None. Otherwise it shows that message as an error and the form is unchanged. |
| CreateEvent.CreateEventPage.HandleSubmit | src/pages/organizerPage/CreateEvent.tsx:198-257 | A request is sent exactly when validation passes, and it carries the form. Success toasts the body's message or "Event created successfully" and navigates to the event list. A refusal shows the body's message or "Failed to create event" and toasts nothing. An error shows and toasts the server message or "Server error. Please try again.". Loading ends false. |
| RegisterPage.EmailAcceptedIffPattern | src/pages/userPage/RegisterPage.tsx:33 | The whole-string test accepts exactly the strings that `^[^\s@]+@[^\s@]+\.[^\s@]+$` matches, in both directions. |
| RegisterPage.AcceptedEmailShape | src/pages/userPage/RegisterPage.tsx:33 | An accepted address has no whitespace and exactly one `@`, which is not the first character. A `.` follows the `@`, with a character on each side of the dot. |
| RegisterPage.SubmitError | src/pages/userPage/RegisterPage.tsx:40-49 | "All fields are required" is given exactly when name, email, phone or password is empty. "Invalid email address" is given exactly when all four are filled and the email is not accepted. There is no other error. |
| RegisterPage.SecretKeyNotRequired | src/pages/userPage/RegisterPage.tsx:40-49 | The secret key never affects whether the form is sent. |
| RegisterPage.SentIffComplete | src/pages/userPage/RegisterPage.tsx:40-49 | The form is sent exactly when the other four fields are filled and the email matches the pattern. |
| RegisterPage.RegisterPageState.constructor | src/pages/userPage/RegisterPage.tsx:17-26 | The page starts with an empty form, not loading, no message, and a user sign-up. |
| RegisterPage.RegisterPageState.HandleChange | src/pages/userPage/RegisterPage.tsx:29-31 | Sets the named field. Nothing else changes. |
| RegisterPage.RegisterPageState.HandleSubmit | src/pages/userPage/RegisterPage.tsx:35-63 | A refused form shows `SubmitError`, sends nothing, toasts nothing and leaves the user as it was. A sent form is the form itself, and the stored user follows `UserAfterAuth`. Success toasts the body's message or "Registration successful!" and navigates to `/login` with no message. Failure shows the server message or "Server error. Try again later.". Loading ends false. |
| RegisterPage.RegisterPageState.ResetType | src/pages/userPage/RegisterPage.tsx:65-69 | Clears the secret key and the message, keeps the other fields, and switches back to a user sign-up. |
| RegisterPage.RegisterPageState.ChooseAdmin | src/pages/userPage/RegisterPage.tsx:82 | Switches to an admin sign-up and changes nothing else. |
| UpdateVenue.FormOfKeepsVenue | src/pages/organizerPage/UpdateVenue.tsx:44-50 | A loaded venue's name and city are kept as they are. A non-zero capacity reads back as the same number. The capacity field is empty exactly when the capacity is missing or zero. |
| UpdateVenue.SetFieldChangesOneEntry | src/pages/organizerPage/UpdateVenue.tsx:65-70 | A change sets the entry under the input's name to the new value. Every other entry keeps its value. |
| UpdateVenue.Entries | src/pages/organizerPage/UpdateVenue.tsx:83-88 | A save sends five entries. |
| UpdateVenue.EntriesRoundTrip | src/pages/organizerPage/UpdateVenue.tsx:83-88 | The entries have distinct names, and the form can be read back from them. |
| UpdateVenue.UpdateVenuePage.constructor | src/pages/organizerPage/UpdateVenue.tsx:22-31 | The page starts loading, not updating, with an empty form. |
| UpdateVenue.UpdateVenuePage.FetchVenue | src/pages/organizerPage/UpdateVenue.tsx:33-63 | With no id nothing happens. A successful load fills the form with `FormOf` of the venue. A refusal keeps the form. An error, or a success without a venue, toasts "Failed to load venue data" and goes to the venue list. Loading ends. |
| UpdateVenue.UpdateVenuePage.HandleChange | src/pages/organizerPage/UpdateVenue.tsx:65-70 | The form becomes `SetField` of the change. |
| UpdateVenue.UpdateVenuePage.HandleSubmit | src/pages/organizerPage/UpdateVenue.tsx:72-107 | A request is sent exactly when all five fields are filled. Otherwise "All fields are required" is shown. The request holds the form's entries. Success toasts the body's message and goes to the venue list. A refusal does nothing visible. An error shows the server message or "Server not responding". |
| UpdateVenue.VenueListLandsOnRoot | src/pages/organizerPage/UpdateVenue.tsx:56 | `/organizer/venue-list` is not a route, so the router lands on `/`. Related lines: 96, 122. |
| EventList.EventStatusCases | src/pages/organizerPage/EventList.tsx:121-132 | An unpublished event is "draft" whatever its dates. Once the start has passed, it is "completed" if the end has passed and "ongoing" otherwise. A future start gives "upcoming". A start that is exactly now or unreadable gives "published". The result is never "cancelled". |
| EventList.StatusColorTotal | src/pages/organizerPage/EventList.tsx:134-144 | A known status gets its own colour. Any other status gets the draft colour. A computed status never gets the red cancelled colour. |
| EventList.PriceLabelCases | src/pages/organizerPage/EventList.tsx:360-371 | "Free" shows exactly for a zero price. The missing label (a dash in the table, "No price" on the card) shows exactly when there is no price or it is negative. A positive price reads back from its `$` label. Related lines: 475-486. |
| EventList.SetFilterChangesOneKey | src/pages/organizerPage/EventList.tsx:104-106 | A filter change sets its own key, keeps the other two, and is idempotent. |
| EventList.EventListPage.constructor | src/pages/organizerPage/EventList.tsx:54-61 | The page starts with no events, loading, an empty search and the default filters. |
| EventList.EventListPage.FetchEvents | src/pages/organizerPage/EventList.tsx:64-81 | The query holds the filters and the search term. Only a success body replaces the list, with its data or `[]`. Loading ends false. |
| EventList.EventListPage.HandleDelete | src/pages/organizerPage/EventList.tsx:146-158 | Nothing is sent unless the user confirms. A successful delete fetches the list again. The alert "Failed to delete event" shows exactly when the request fails. A refusal changes nothing. |
| EventList.EventListPage.SetSearchTerm | src/pages/organizerPage/EventList.tsx:187 | Sets the search term and nothing else. |
| EventList.EventListPage.HandleFilterChange | src/pages/organizerPage/EventList.tsx:104-106 | The filters become `SetFilter` of the change. Nothing else changes. |
| EventList.EventListPage.ClearFilters | src/pages/organizerPage/EventList.tsx:108-111 | The filters go back to their defaults and the search is emptied. The list is kept. |
| VenueList.FormatCapacityCases | src/pages/organizerPage/VenueList.tsx:54-58 | "N/A" shows exactly for a missing or zero capacity. The thousands form shows exactly from 1000 up. A capacity from 1 to 999 shows as its 1-3 digit text, which reads back as the number. |
| VenueList.CapacityBands | src/pages/organizerPage/VenueList.tsx:60-67 | Each badge colour holds exactly for its band, stated both ways: none or zero is gray, 5000+ red, 2000-4999 orange, 1000-1999 yellow, 500-999 green, and any other non-zero value blue. |
| VenueList.LocationShowsGarbledDash | src/pages/organizerPage/VenueList.tsx:143 | With neither city nor country, the cell as written shows three characters, not a dash. |
| VenueList.LocationCases | src/pages/organizerPage/VenueList.tsx:141-143 | Both parts present gives "city, country". One present gives that one. Neither gives the dash. The cell is never empty, and it differs from the as-written cell exactly in the dash case. |
| VenueList.FooterPlural | src/pages/organizerPage/VenueList.tsx:177 | One venue gives "Showing 1 venue". Any other count ends in "venues". |
| Seqs.WithoutKeySpec | src/pages/organizerPage/VenueList.tsx:45 | Removing an id keeps exactly the elements with another id, in their order. It changes nothing when no element has that id. |
| Seqs.FilterIsSubsequence | src/pages/organizerPage/VenueList.tsx:45 | A filtered list keeps its elements in their original order. |
| Seqs.FilterDistinctBy | src/pages/organizerPage/VenueList.tsx:45 | Filtering keeps ids distinct. |
| VenueList.VenueListPage.constructor | src/pages/organizerPage/VenueList.tsx:19-21 | The page starts with no venues, loading, and no delete in progress. |
| VenueList.VenueListPage.FetchVenues | src/pages/organizerPage/VenueList.tsx:23-38 | Only a success body replaces the list, with its venues or `[]`. Loading ends false. |
| VenueList.VenueListPage.HandleDelete | src/pages/organizerPage/VenueList.tsx:40-52 | Nothing is sent unless the user confirms. A successful delete removes exactly the venues with that id. The alert "Failed to delete venue" shows exactly when the request fails. The delete marker is cleared. |
| UserOrders.FilteredOrdersSpec | src/pages/userPage/UserOrderPage.tsx:69-80 | The filtered list keeps the fetched order. It holds an order exactly when that order passes both the status filter and the search. |
| UserOrders.AllAndNoSearchKeepsAll | src/pages/userPage/UserOrderPage.tsx:69-80 | With the filter on "all" and no search, every order is listed. |
| UserOrders.KeptOrdersMatch | src/pages/userPage/UserOrderPage.tsx:70-77 | Each listed order has the chosen status, unless the filter is "all". With a search, its number, title or venue name contains the lower-cased term. |
| UserOrders.SearchIgnoresCase | src/pages/userPage/UserOrderPage.tsx:72-76 | Whether an order matches does not depend on the letter case of the search term. |
| UserOrders.StatusBadgeFallback | src/pages/userPage/UserOrderPage.tsx:46-53 | "Paid" is shown exactly for `paid` and "Failed" exactly for `failed`. Every other status, such as `cancelled` or `refunded`, gets the Pending badge. |
| UserOrders.DownloadOnlyWhenPaid | src/pages/userPage/UserOrderPage.tsx:152 | The download button appears exactly for orders whose badge reads Paid. |
| UserOrders.OrderLabel | src/pages/userPage/UserOrderPage.tsx:141 | The label is the order number when one is given. Otherwise it is the last `min(8, \|id\|)` characters of the id. |
| UserOrders.TitleLabel | src/pages/userPage/UserOrderPage.tsx:140 | The title shown is never empty. It is the event's title when that is given, and "Unknown Event" otherwise. |
| UserOrders.UserOrdersPage.constructor | src/pages/userPage/UserOrderPage.tsx:41-44 | The page starts with no orders, loading, the filter on "all" and an empty search. |
| UserOrders.UserOrdersPage.FetchOrders | src/pages/userPage/UserOrderPage.tsx:54-68 | The answer replaces the list. A failure keeps it. Loading ends false. |
| UserOrders.UserOrdersPage.SetFilter | src/pages/userPage/UserOrderPage.tsx:111 | Sets the status filter and nothing else. |
| UserOrders.UserOrdersPage.SetSearchTerm | src/pages/userPage/UserOrderPage.tsx:105 | Sets the search term and nothing else. |
| UserOrders.UserOrdersPage.DownloadAllTickets | src/pages/userPage/UserOrderPage.tsx:82-88 | Asks for the tickets of that order. "Download failed" is alerted exactly when the request fails. |
| AdminVenues.FilteredVenuesSpec | src/pages/adminPage/AdminVenues.tsx:147-151 | The search keeps, in order, exactly the venues whose name or city contains the term, ignoring case. An empty term keeps every venue. |
| AdminVenues.EditFormKeepsVenue | src/pages/adminPage/AdminVenues.tsx:87-99 | The edit form holds the venue's text fields unchanged. The capacity text is empty exactly when the venue has no capacity, and otherwise reads back as the same number. |
| AdminVenues.AdminVenuesPage.constructor | src/pages/adminPage/AdminVenues.tsx:31-47 | The page starts with no venues, loading, the modal closed, nothing edited, an empty search, an empty form, no image and not submitting. |
| AdminVenues.AdminVenuesPage.FetchVenues | src/pages/adminPage/AdminVenues.tsx:53-65 | The answer goes through `getVenues`, which catches every failure (src/context/EventContext.tsx:171-180). So only a success body replaces the list, a failed request keeps it, and no toast is ever shown. Loading ends false; the search and the form are untouched. |
| AdminVenues.AdminVenuesPage.HandleInputChange | src/pages/adminPage/AdminVenues.tsx:67-69 | The form becomes `SetField` of the change. |
| AdminVenues.AdminVenuesPage.HandleImageChange | src/pages/adminPage/AdminVenues.tsx:71-77 | A chosen file becomes the image and its object URL the preview. No file changes nothing. |
| AdminVenues.AdminVenuesPage.SetSearchTerm | src/pages/adminPage/AdminVenues.tsx:35 | Sets the search term and nothing else. |
| AdminVenues.AdminVenuesPage.ResetForm | src/pages/adminPage/AdminVenues.tsx:79-85 | Empties the form, image, preview and edited venue, and closes the modal. The list is kept. |
| AdminVenues.AdminVenuesPage.HandleEdit | src/pages/adminPage/AdminVenues.tsx:87-98 | The venue becomes the edited one and fills the form with `EditForm`. Its image, if non-empty, becomes the preview. The modal opens. |
| AdminVenues.AdminVenuesPage.HandleSubmit | src/pages/adminPage/AdminVenues.tsx:100-131 | An empty name stops the save with "Venue name is required" and changes nothing. Otherwise the request is an update of the edited venue, or a create, carrying the form's entries and the image. Success toasts "Venue updated/created successfully", fetches the list again and clears the form. A request error toasts the server message or "Something went wrong" and keeps the form. The list, the search and the loading flag are never touched. |
| AdminVenues.AdminVenuesPage.HandleDelete | src/pages/adminPage/AdminVenues.tsx:133-145 | Nothing is sent unless the user confirms. A successful delete removes exactly the venues with that id and toasts "Venue deleted successfully". A request error toasts "Failed to delete venue" and keeps the list. Nothing but the list changes. |
| AdminCategories.FilteredCategoriesSpec | src/pages/adminPage/AdminCategories.tsx:126-128 | The search keeps, in order, exactly the categories whose name contains the term, ignoring case. An empty term keeps all of them. |
| AdminCategories.Parts | src/pages/adminPage/AdminCategories.tsx:83-85 | The body holds the name first, then the image only when one was chosen, and nothing else. |
| AdminCategories.AdminCategoriesPage.constructor | src/pages/adminPage/AdminCategories.tsx:25-35 | The page starts with no categories, loading, the modal closed, nothing edited, empty search and name, no image and not submitting. |
| AdminCategories.AdminCategoriesPage.FetchCategories | src/pages/adminPage/AdminCategories.tsx:41-53 | The answer goes through `getCategories`, which catches every failure (src/context/EventContext.tsx:125-134). So only a success body replaces the list, a failed request keeps it, and no toast is ever shown. Loading ends false; the search and the form are untouched. |
| AdminCategories.AdminCategoriesPage.HandleImageChange | src/pages/adminPage/AdminCategories.tsx:55-61 | A chosen file becomes the image and its object URL the preview. No file changes nothing. |
| AdminCategories.AdminCategoriesPage.SetName | src/pages/adminPage/AdminCategories.tsx:249 | Sets the name and nothing else. |
| AdminCategories.AdminCategoriesPage.SetSearchTerm | src/pages/adminPage/AdminCategories.tsx:160 | Sets the search term and nothing else. |
| AdminCategories.AdminCategoriesPage.ResetForm | src/pages/adminPage/AdminCategories.tsx:63-69 | Empties the name, image, preview and edited category, and closes the modal. The list is kept. |
| AdminCategories.AdminCategoriesPage.HandleEdit | src/pages/adminPage/AdminCategories.tsx:71-76 | The category becomes the edited one and its name fills the form. Its image, if non-empty, becomes the preview. The modal opens. |
| AdminCategories.AdminCategoriesPage.HandleSubmit | src/pages/adminPage/AdminCategories.tsx:78-109 | An empty name stops the save with "Category name is required". Otherwise the request is an update of the edited category, or a create, carrying the name and the image. Success toasts "Category updated/created successfully", fetches again and clears the form. A refusal toasts the body's message. A request error toasts the server message or "Something went wrong". The list, the search and the loading flag are never touched. |
| AdminCategories.AdminCategoriesPage.HandleDelete | src/pages/adminPage/AdminCategories.tsx:111-124 | Nothing is sent unless the user confirms. A successful delete removes exactly the categories with that id and toasts "Category deleted successfully". A request error toasts "Failed to delete category". Nothing but the list changes. |
| AdminMedia.FilteredMediaSpec | src/pages/adminPage/AdminMedia.tsx:107-109 | The search keeps, in order, exactly the items whose title contains the term, ignoring case. An empty term keeps all of them. |
| AdminMedia.UploadParts | src/pages/adminPage/AdminMedia.tsx:73-77 | An upload sends four parts in order: title, description, the type's name, and the file under `media`. |
| AdminMedia.AdminMediaPage.constructor | src/pages/adminPage/AdminMedia.tsx:20-31 | The page starts with no media, loading, the modal closed, an empty search, an empty form of type image with no file, and not submitting. |
| AdminMedia.AdminMediaPage.FetchMedia | src/pages/adminPage/AdminMedia.tsx:37-49 | Only a success body replaces the list. "Failed to fetch media" is toasted exactly on a request error. Loading ends false. |
| AdminMedia.AdminMediaPage.HandleFileChange | src/pages/adminPage/AdminMedia.tsx:51-57 | A chosen file becomes the upload and its object URL the preview. No file changes nothing. |
| AdminMedia.AdminMediaPage.SetTitle | src/pages/adminPage/AdminMedia.tsx:199 | Sets the title and nothing else. |
| AdminMedia.AdminMediaPage.SetType | src/pages/adminPage/AdminMedia.tsx:205-208 | Sets the media type and nothing else. |
| AdminMedia.AdminMediaPage.OpenModal | src/pages/adminPage/AdminMedia.tsx:123 | Opens the modal and keeps the form. |
| AdminMedia.AdminMediaPage.SetSearchTerm | src/pages/adminPage/AdminMedia.tsx:139 | Sets the search term and nothing else. |
| AdminMedia.AdminMediaPage.ResetForm | src/pages/adminPage/AdminMedia.tsx:59-66 | Empties the form, sets the type back to image, drops the file and preview, and closes the modal. The list is kept. |
| AdminMedia.AdminMediaPage.HandleSubmit | src/pages/adminPage/AdminMedia.tsx:68-91 | Without a title or a file the upload stops with "Title and file are required". Otherwise it sends `UploadParts`. Success toasts "Media uploaded successfully", fetches again and clears the form. A request error toasts the server message or "Something went wrong" and keeps the form. The list, the search and the loading flag are never touched. |
| AdminMedia.AdminMediaPage.HandleDelete | src/pages/adminPage/AdminMedia.tsx:93-105 | Nothing is sent unless the user confirms. A successful delete removes exactly the items with that id and toasts "Media deleted successfully". A request error toasts "Failed to delete media". Nothing but the list changes. |
| AdminDashboard.OrderLabel | src/pages/adminPage/AdminDashboardStats.tsx:176 | The label is the order number when one is given. Otherwise it is the last `min(6, \|id\|)` characters of the id. |
| AdminDashboard.CustomerLabel | src/pages/adminPage/AdminDashboardStats.tsx:177 | The customer's name when given, else "Guest". The cell is never empty. |
| AdminDashboard.Amount | src/pages/adminPage/AdminDashboardStats.tsx:178 | A given amount is shown as it is. A missing amount counts as 0. |
| AdminDashboard.StatusBadgeColor | src/pages/adminPage/AdminDashboardStats.tsx:180 | The badge is green exactly for `paid`. Every other status is yellow. |
| AdminDashboard.RoleCard | src/pages/adminPage/AdminDashboardStats.tsx:200-216 | The card shows three counts in the order users, organizers, admins. A present count shows as it is. A record with no counts shows three zeros. |
| AdminDashboard.ViewOf | src/pages/adminPage/AdminDashboardStats.tsx:100-109 | A spinner shows exactly while loading. Nothing shows exactly when loading is done without stats. Otherwise the dashboard shows those stats. |
| AdminDashboard.RedirectOf | src/pages/adminPage/AdminDashboardStats.tsx:78-82 | The page goes to `/login` exactly when the call throws a 401 or 403. |
| AdminDashboard.ContextStatsAsWritten | src/context/EventContext.tsx:399-409 | As written, the context returns the body of a 2xx answer and `{success: false}` for every failure, so it never throws. |
| AdminDashboard.LoginRedirectUnreachable | src/pages/adminPage/AdminDashboardStats.tsx:80-82 | With the context as written the redirect never happens. A 401 leaves an empty dashboard. |
| AdminDashboard.ContextStatsCorrected | src/context/EventContext.tsx:399-409 | The corrected context passes a 401 or 403 on to the page. Every other answer is handled as before. |
| AdminDashboard.LoginRedirectOnAuthFailure | src/pages/adminPage/AdminDashboardStats.tsx:78-82 | With the corrected context, the page goes to `/login` exactly on a 401 or 403. Every other answer behaves as it does now. |
| AdminDashboard.AdminDashboardPage.constructor | src/pages/adminPage/AdminDashboardStats.tsx:67-68 | The page starts loading, with no stats. |
| AdminDashboard.AdminDashboardPage.FetchStats | src/pages/adminPage/AdminDashboardStats.tsx:70-89 | Only a success body replaces the stats. The navigation is `RedirectOf` the result. Loading ends false. |
| EventDetail.MockEvent | src/pages/userPage/UserEventDetailPage.tsx:71-126 | A demo event exists exactly for the ids "1", "2" and "3", and it carries that id. |
| EventDetail.FetchResultCases | src/pages/userPage/UserEventDetailPage.tsx:141-155 | The real event is used exactly when the answer has `success` and an event. Otherwise ids "1" to "3" give their demo event with no error, and any other id gives the not-found message. The error is empty exactly when the server or the demo data had the event. |
| EventDetail.ViewOf | src/pages/userPage/UserEventDetailPage.tsx:194-218 | A spinner shows exactly while loading. The not-found screen shows exactly when loading is done, there is an error and there is no event. Details show only for the held event. |
| EventDetail.StaleEventShown | src/pages/userPage/UserEventDetailPage.tsx:149-155 | After moving from event "1" to an unknown id "99", the page still shows event "1". |
| EventDetail.CorrectedFetchShowsOnlyThisRequest | src/pages/userPage/UserEventDetailPage.tsx:141-155 | In the corrected fetch, details show only for the event this request found. The not-found screen shows exactly when neither source has the id. Whenever the id is found, the corrected fetch agrees with the code as written. |
| EventDetail.RegularPriceCases | src/pages/userPage/UserEventDetailPage.tsx:298 | "Free" shows exactly for a missing or zero price. Any other label is the price's text followed by "ETB", and that text reads back as the price. |
| EventDetail.VipZeroShowsStrayZero | src/pages/userPage/UserEventDetailPage.tsx:301-306 | As written, a VIP price of 0 renders a bare "0". |
| EventDetail.VipShownOnlyWhenTruthy | src/pages/userPage/UserEventDetailPage.tsx:301-306 | The corrected VIP block appears exactly for a truthy price and shows that price. It is never stray text, and it agrees with the code as written everywhere except at 0. |
| EventDetail.Display | src/pages/userPage/UserEventDetailPage.tsx:245 | Image, venue name and description are never empty. Each one given is shown as it is, and each missing one gets its fallback. Related lines: 288, 319. |
| EventDetail.EventDetailPage.constructor | src/pages/userPage/UserEventDetailPage.tsx:66-68 | The page starts with no event, loading, and no error. |
| EventDetail.EventDetailPage.FetchEventDetails | src/pages/userPage/UserEventDetailPage.tsx:128-158 | With no id nothing happens. Otherwise the event and the error become `FetchResult`, and loading ends false on every path. |
| EventDetail.EventDetailPage.HandleGetTicket | src/pages/userPage/UserEventDetailPage.tsx:190-192 | "Get Ticket" goes to `/seat-selection`. |
| EventsPage.ImageUrlCases | src/pages/userPage/EventsPage.tsx:156-161 | An image starting with "http" is used as it is. Any other non-empty image is `BASE_URL/uploads/` followed by the image. No image gives the placeholder. |
| EventsPage.SectionsArePrefixes | src/pages/userPage/EventsPage.tsx:147 | The sections show the first `min(9, n)` and the first `min(8, n)` events, in fetched order. The popular section is a prefix of the upcoming one. Related lines: 206. |
| EventsPage.PriceText | src/pages/userPage/EventsPage.tsx:178 | No price gives "N/A ETB". A price, including 0, gives its text followed by " ETB", and that text reads back as the price. Related lines: 232. |
| EventsPage.ViewAllText | src/pages/userPage/EventsPage.tsx:135 | The link reads "View All (n)", and n parses back to the number of fetched events. Related lines: 194. |
| EventsPage.DetailLinkResolves | src/pages/userPage/EventsPage.tsx:149 | A card link for a one-segment id opens the public detail route for that id. Related lines: 208. |
| EventsPage.EventsPageState.constructor | src/pages/userPage/EventsPage.tsx:29-30 | The page starts with no events, loading. |
| EventsPage.EventsPageState.FetchEvents | src/pages/userPage/EventsPage.tsx:36-51 | The fetched list becomes the page's list, and loading ends false. |
| HomePage.ReplaceRuns | src/pages/userPage/HomePage.tsx:83 | Replacing whitespace runs never makes the text longer. |
| HomePage.ReplacedHasNoSpace | src/pages/userPage/HomePage.tsx:83 | After `replace(/\s+/g, '-')` no whitespace is left. |
| HomePage.ReplaceWithoutSpace | src/pages/userPage/HomePage.tsx:83 | Text without whitespace is left unchanged. |
| HomePage.SlugShape | src/pages/userPage/HomePage.tsx:83 | A venue slug has no whitespace and no upper-case letter, and making a slug of a slug changes nothing. |
| HomePage.RunBecomesOneDash | src/pages/userPage/HomePage.tsx:83 | One maximal whitespace run between two other parts becomes exactly one `-`. |
| HomePage.ReplaceAppend | src/pages/userPage/HomePage.tsx:83 | The replacement splits over a concatenation, with the run state carried across the split. |
| HomePage.SlugNoSlash | src/pages/userPage/HomePage.tsx:83 | The slug of a path segment is a non-empty text without `/`. |
| HomePage.CategoryLinkResolves | src/pages/userPage/HomePage.tsx:62 | A category card whose lower-cased name is one segment opens the public category page, with that name as the parameter. |
| HomePage.VenueLinkLandsOnRoot | src/pages/userPage/HomePage.tsx:83 | No route starts with `events-by-venue`, so a venue card whose name is one path segment falls through to `*` and lands on `/`. |
| HomePage.CategoryPathResolves | src/pages/userPage/HomePage.tsx:62 | `/events-by-category/x` opens the public category page for every single-segment `x`. |
| HomePage.VenuePathLandsOnRoot | src/pages/userPage/HomePage.tsx:83 | `/events-by-venue/x` lands on `/` for every single-segment `x`. |
| HomePage.CategoriesViewAllLandsOnRoot | src/pages/userPage/HomePage.tsx:57 | The categories "View All" link `/categories-list` lands on `/`. |
| HomePage.VenuesViewAllLandsOnRoot | src/pages/userPage/HomePage.tsx:78 | The venues "View All" link `/venues` lands on `/`. |
| HomePage.EventsViewAllResolves | src/pages/userPage/HomePage.tsx:120 | The upcoming section's "View All" link opens the public events page. |
| HomePage.MediaLinksLandOnRoot | src/pages/userPage/HomePage.tsx:182 | The media section's `/media` links land on `/`. Related lines: 190. |
| HomePage.OneSegmentFallsBack | src/App.tsx:130 | A one-segment path that no public route has, outside the guarded subtrees, falls through to `*`. |
| HomePage.DetailLinks | src/pages/userPage/HomePage.tsx:124-125 | There is one link per card, in card order, each being the detail link of that card's id. |
| HomePage.UpcomingLinksDistinct | src/pages/userPage/HomePage.tsx:23-32 | The demo events have distinct ids, and so distinct detail links and React keys. Related lines: 125. |
| Venues.DisplayName | src/components/Venues.tsx:122 | A missing name shows as nothing. A name of at most 20 characters shows as it is. A longer name shows its first 20 characters followed by "...". |
| Venues.DisplayNameBounds | src/components/Venues.tsx:122 | A shown name has at most 23 characters and starts with the first `min(20, n)` characters of the name. |
| Venues.DisplayNameUnchangedIff | src/components/Venues.tsx:122 | A name is shown unchanged exactly when it has at most 20 characters, or is itself 20 characters followed by "...". |
| Venues.DisplayNameIdempotent | src/components/Venues.tsx:122 | Shortening a shown name again changes nothing. |
| Venues.ExploreLinkLandsOnRoot | src/components/Venues.tsx:112 | Every "Explore" link lands on `/`, because no route has `events-by-venue`. |
| Venues.ScrollDelta | src/components/Venues.tsx:46-56 | Without a mounted strip nothing scrolls. "left" scrolls by -200 and "right" by 200. |
| Venues.ArrowsScrollBackwards | src/components/Venues.tsx:80-89 | As written, the left arrow scrolls right and the right arrow scrolls left. |
| Venues.ArrowsScrollTheirWay | src/components/Venues.tsx:80-89 | With corrected wiring each arrow scrolls the way it points, and the two arrows undo each other. |
| Venues.VenuesSection.constructor | src/components/Venues.tsx:19-21 | The strip starts with no venues, loading, and no error. |
| Venues.VenuesSection.FetchVenues | src/components/Venues.tsx:26-43 | A success body replaces the list with its venues or `[]`. Any answer clears the error. A request error sets "Failed to fetch venues". Loading ends false. |
| Venues.VenuesSection.View | src/components/Venues.tsx:57-131 | In order: the loading text, then the error, then "No venues available." exactly for an empty list. Otherwise one card per venue, showing its `DisplayName`. |

## Left out

- HTTP and axios: each request's answer is an input parameter. Cookies, credentials and the dev proxy have no effect on the decisions modelled. The backend is not part of this model.
- JSX, Tailwind classes and layouts are not modelled. A rendered screen is reduced to the datatype of what it shows.
- Toasts and alerts: each one a handler shows is among its results, as a `Toast` or the alert text. Their display and duration, and all `console` output, are not modelled.
- Timers: the `setTimeout` that clears a message after a few seconds is not modelled. A redirect scheduled with `setTimeout` is returned as the navigation target.
- Concurrency: each handler and each effect run is one atomic step. Overlapping fetches and their races are not modelled.
- Effect re-runs are not modelled. Examples are the organizer event table refetching when a filter changes (`FetchEvents` is its own method) and the payment page's effect running again when its dependencies change.
- Organizer event table: `fetchCategories` only fills a dropdown, so it is not modelled. `handleSearch` calls `fetchEvents`, which is modelled.
- CreateEvent: the category and venue dropdown fetch is not modelled. It fills only the select options.
- EventsPage: the filter selects that nothing reads are not modelled.
- Dates: date-fns and `new Date` become integer timestamps with an explicit `now`. An unparseable date is a missing one. `toISOString` and the display formats ("Date TBD", `format(...)`) are not modelled.
- Floating point and locale formatting: `parseFloat` prices are modelled as integers. Capacities of 1000 and over are the `Thousands` label without their `toFixed(1)` text. The `Intl.NumberFormat` currency text of the dashboard is not modelled.
- Browser APIs are not modelled: `URL.createObjectURL`, `revokeObjectURL`, `FileReader`, blob ticket downloads and the Google Identity script. A chosen preview is an opaque string. `window.confirm` becomes a boolean parameter.
- `handleShare` on the event detail page is not modelled, because it only calls `navigator.share` or the clipboard.
- ProtectedRoute's source is not part of this model. The model states only the role lists that App passes to it, not how the guard redirects.
- Text: `toLowerCase`, `\s` and `trim` are restricted to ASCII. Unicode case mapping and other whitespace are not modelled.
- The prototype keys of the `mockEvents` object are not modelled. Only the ids "1", "2" and "3" resolve to a demo event.
- AdminMedia: no input edits the description. Only `resetForm` and the initial state set it, as in the source.
- VerifyPayment.VerifyPaymentPage.RunEffect: success and failure are terminal only within one run of the effect. A later run, caused by its dependencies changing, is not modelled.
- VenueList.FormatCapacityCases: for capacities of 1000 and over, it states only that the label is the thousands one, not its digits.
- AdminDashboard.Amount: it states the number passed to the currency formatter, not the formatted text.
- EventsPage.PriceText: the price is an integer, not the JavaScript value that the page prints as it is.

## Findings

| source | as written | input that shows it | evidently intended | confidence | as-written member | corrected member |
|---|---|---|---|---|---|---|
| src/pages/userPage/paymentPage/SeatSelectionPage.tsx:77-91 | The map colours and disables each seat by the generated grid's status, which `toggleSeat` never updates. | Click the available seat A3. It is in the selection, but the map still shows it as available. | A seat in the selection is shown as selected. | not executed | SeatSelection.MapIgnoresSelection | SeatSelection.ShownStatusFollowsSelection |
| src/pages/adminPage/AdminDashboardStats.tsx:80-82 | The page redirects to `/login` on a thrown 401 or 403, but `getDashboardStats` (src/context/EventContext.tsx:399-409) catches every error. | The server answers 401. The admin stays on an empty dashboard. | An authentication failure reaches the page and leads to `/login`. | not executed | AdminDashboard.LoginRedirectUnreachable | AdminDashboard.LoginRedirectOnAuthFailure |
| src/pages/userPage/UserEventDetailPage.tsx:301-306 | The VIP block is guarded by `price && (...)`, which renders the number itself when it is 0. | A VIP price of 0 shows a bare "0" under the regular price. | Nothing is shown for a VIP price of 0. | not executed | EventDetail.VipZeroShowsStrayZero | EventDetail.VipShownOnlyWhenTruthy |
| src/pages/userPage/UserEventDetailPage.tsx:149-155 | An unknown id sets the error but never clears `event`, and the not-found screen needs `error && !event`. | Open event "1", then an id "99" that fails with no demo event. The page still shows event "1". | An unknown id shows the not-found screen. | not executed | EventDetail.StaleEventShown | EventDetail.CorrectedFetchShowsOnlyThisRequest |
| src/pages/organizerPage/VenueList.tsx:143 | The fallback for a venue with neither city nor country is three mis-encoded characters instead of an em dash. | A venue with no city and no country. | The cell shows a dash. | not executed | VenueList.LocationShowsGarbledDash | VenueList.LocationCases |
| src/components/Venues.tsx:80-89 | The left arrow calls `handleScroll("right")` and the right arrow calls `handleScroll("left")`. | Click the left arrow. The strip scrolls 200 pixels to the right. | Each arrow scrolls the way it points. | not executed | Venues.ArrowsScrollBackwards | Venues.ArrowsScrollTheirWay |
