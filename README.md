# StayFinder in Dafny

StayFinder is a small vacation-rental booking site. It has an Express/Mongoose
server (users, profiles, listings, bookings) and two Next.js front ends
(`client` and `stayfinder`). This project models its sequential logic:

- **Server route handlers.** Each collection is a class. Listings and
  bookings are maps from id to document plus an id counter; profiles are a map
  keyed by user; users are a sequence whose positions are the ids. Each
  handler is a method that answers a status and updates the table in place.
  This covers:
  - ownership and host checks;
  - 404 checked before 403;
  - one profile per user;
  - lazy profile creation at login;
  - the listing search filter.
- **bcrypt and JWT.** bcrypt is an abstract key-derivation function. A signed
  token is the claims record it is built from.
- **Booking price.** Dates are day numbers and prices are whole numbers. This
  covers nights, subtotal, the service fee rounding, the total and the guard
  that shows the breakdown.
- **Client helpers:**
  - the new-listing page's comma-list parser;
  - the profile form's normalisation and save payload;
  - the image carousel's modular index;
  - the listing card's amenity summary;
  - the `URLSearchParams` updates of the filter sidebar and search bar;
  - the session store over `localStorage`, with JSON escaping for the stored
    user record.

Files:

- `common.dfy`: `Option`, ids, days, status codes.
- `text.dfy`: JavaScript string operations (ASCII case mapping, `trim`,
  `split`/`join`, decimal text).
- `crypto.dfy`: bcrypt and JWT.
- `server_listings.dfy`, `server_bookings.dfy`, `server_profiles.dfy`,
  `server_auth.dfy`: the four route files.
- `booking_price.dfy`: both booking forms.
- `new_listing_page.dfy`, `profile_page.dfy`, `listing_detail.dfy`,
  `listing_card.dfy`: the corresponding components.
- `url_params.dfy`, `filter_sidebar.dfy`, `search_bar.dfy`: query strings.
- `session_json.dfy`, `auth_context.dfy`: the session store.

Where the code says something different from what its names and comments
suggest, the model follows the code. Examples:

- `GET /listings/:id` answers 200 with `null` for a missing id.
- `PUT`/`DELETE /listings/:id` on a missing id throw before answering.
- The registration token has no `isHost`.
- The `stayfinder` booking form shows a total even for reversed dates.
- A profile date cannot be cleared from the profile page.

## Model

| member | source | states |
|---|---|---|
| ServerListings.NewListing | server/routes/listing.js:31 | a new listing takes every field from the body except the owner, which is the caller whatever `hostId` the body sends |
| ServerListings.ApplyPatch | server/routes/listing.js:42-44 | each field present in the update body replaces the stored one (the owner included) and each absent field keeps its value |
| ServerListings.BuildFilter | server/routes/listing.js:9-15 | the filter is built step by step; it has a location part iff a location is given and a price part iff either bound is given, and it admits a listing exactly when the location matches case-insensitively and the price lies within the given inclusive bounds |
| ServerListings.ApplyPatchIdempotent | server/routes/listing.js:42-44 | an update overwrites only the fields present in the body: applying it twice is applying it once, and an empty body changes nothing |
| ServerListings.ListingTable.constructor | server/routes/listing.js:3 | the listings collection starts empty |
| ServerListings.ListingTable.Search | server/routes/listing.js:8-18 | the result is exactly the stored listings the query matches, unchanged; an empty query returns every listing |
| ServerListings.ListingTable.Get | server/routes/listing.js:22-25 | always 200; the listing when the id exists, `null` otherwise (no 404) |
| ServerListings.ListingTable.Create | server/routes/listing.js:28-34 | a caller without a truthy `isHost` gets 403 and nothing is added; a host gets 201 and a fresh id holding the body's fields with `hostId` forced to the caller |
| ServerListings.ListingTable.Update | server/routes/listing.js:37-46 | a missing id gets no response; a non-owner gets 403 with the table unchanged; the owner gets 200 and the patched listing, stored under the same id, every other listing unchanged |
| ServerListings.ListingTable.Delete | server/routes/listing.js:49-56 | a missing id gets no response; a non-owner gets 403 with the table unchanged; the owner's delete removes exactly that listing |
| ServerBookings.Gate | server/routes/bookings.js:39-41 | 200 iff the booking exists and belongs to the caller; 404 for a missing id, checked before 403 for another user's booking |
| ServerBookings.Reschedule | server/routes/bookings.js:57-59 | an update changes only the dates, replaces a date only when the body gives one, and never touches the listing or the owner |
| ServerBookings.RescheduleIdempotent | server/routes/bookings.js:57-60 | sending the same update twice is sending it once, and a body without dates leaves the booking as it was |
| ServerBookings.BookingTable.constructor | server/routes/bookings.js:3 | the bookings collection starts empty |
| ServerBookings.BookingTable.Create | server/routes/bookings.js:7-21 | 201; a fresh id holds the body's listing and dates as given, with `userId` the caller whatever the body says |
| ServerBookings.BookingTable.MyBookings | server/routes/bookings.js:24-33 | exactly the bookings whose `userId` is the caller, unchanged |
| ServerBookings.BookingTable.Get | server/routes/bookings.js:36-47 | the gate's status; the booking only with 200, and then it is the caller's |
| ServerBookings.BookingTable.Update | server/routes/bookings.js:50-66 | the gate's status; a 404 or 403 leaves the table unchanged; the owner's update reschedules that booking and nothing else |
| ServerBookings.BookingTable.Delete | server/routes/bookings.js:69-81 | the gate's status; a 404 or 403 leaves the table unchanged; the owner's delete removes exactly that booking |
| ServerProfiles.SetFields | server/routes/profile.js:37-41 | `$set`: every field present in the body replaces the stored one, and every field it leaves out keeps its value |
| ServerProfiles.Ensured | server/routes/auth.js:52-64 | after ensuring, the user has a profile; an existing one is kept as it is, a missing one is created empty, no other key is added and every other user's profile keeps its value |
| ServerProfiles.EnsuredIdempotent | server/routes/auth.js:52-64 | ensuring twice is ensuring once, so repeated logins leave exactly one profile |
| ServerProfiles.ProfileTable.constructor | server/routes/profile.js:4 | the profiles collection starts empty |
| ServerProfiles.ProfileTable.Get | server/routes/profile.js:8-16 | 404 when the caller has no profile, otherwise 200 and the caller's profile |
| ServerProfiles.ProfileTable.Create | server/routes/profile.js:19-32 | 400 with nothing changed when the caller has a profile; otherwise 201 and the body's fields stored under the caller, whatever `user` the body names |
| ServerProfiles.ProfileTable.Update | server/routes/profile.js:35-48 | 404 without creating a profile when there is none; otherwise only the fields given are set on the caller's profile, which is returned, and no other profile changes |
| ServerProfiles.ProfileTable.Delete | server/routes/profile.js:51-59 | 404 when there is no profile; otherwise exactly the caller's profile is removed |
| ServerProfiles.ProfileTable.CreateEmpty | server/routes/auth.js:19-28 | registration stores the empty profile (text fields "", `dob` null) under the new user, who has none yet, and changes no other profile |
| ServerProfiles.ProfileTable.EnsureProfile | server/routes/auth.js:52-64 | the table becomes `Ensured` of the old one |
| ServerAuth.FirstWithEmail | server/routes/auth.js:45 | `findOne({ email })`: none iff no user has the email, otherwise the first user with it |
| ServerAuth.Authenticate | server/routes/auth.js:44-49 | no user has the email: nobody is identified; otherwise the first user with the email is identified exactly when the password matches that user's hash, and a later user with the same email never is |
| ServerAuth.UserTable.constructor | server/routes/auth.js:3-5 | the users collection starts empty; the key derivation is fixed for the table's life |
| ServerAuth.UserTable.Register | server/routes/auth.js:8-39 | 201; appends the user with the bcrypt hash of the password (never the password) and `isHost` false; creates the empty profile; the token carries only the id, for one day; the reply holds the whole saved user; every profile still belongs to a registered user |
| ServerAuth.UserTable.Login | server/routes/auth.js:43-76 | an unknown email and a wrong password get the same 401 "Invalid credentials" with nothing changed; otherwise 200, a profile is ensured, the token carries id and `isHost` for one day, and the reply's user holds only id, name and `isHost`; every profile still belongs to a registered user |
| ServerAuth.RegisterTokenIsNotHost | server/routes/auth.js:30-32 | a registration token never passes the host check |
| ServerAuth.RegisterThenLogin | server/routes/auth.js:12-49 | after registering with an email no earlier user has, logging in with the same email and password identifies the new user |
| Crypto.Hash | server/routes/auth.js:12-13 | the hash records cost 10 and the salt it was made with, and `compare` accepts the password it was made from |
| Crypto.CompareHash | server/routes/auth.js:48-49 | `compare` accepts the password a hash was made from, and (for an injective derivation) only that one |
| Crypto.Sign | server/routes/auth.js:30-32 | a token carries exactly the claims it is signed with and expires after one day |
| Crypto.IsHost | server/routes/listing.js:29-30 | a caller passes exactly when its host claim is true: a true claim passes, and a false or missing one never does |
| BookingPrice.CeilDiv | client/components/booking-form.tsx:36 | `Math.ceil(a / b)`: the least whole number at or above a / b |
| BookingPrice.NightsAreDays | client/components/booking-form.tsx:41-44 | for date-only inputs the ceiling of the millisecond difference over a day is the difference of the day numbers |
| BookingPrice.Nights | client/components/booking-form.tsx:41-44 | 0 while either date is empty, otherwise check-out minus check-in in days |
| BookingPrice.CalculateTotalPrice | client/components/booking-form.tsx:31-39 | the subtotal is 0 while either date is empty, otherwise day difference times price |
| BookingPrice.ServiceFee | client/components/booking-form.tsx:46 | the fee is the whole number nearest a tenth of the subtotal, halves rounded up |
| BookingPrice.Total | client/components/booking-form.tsx:47 | total is subtotal plus fee; for a subtotal that is not negative, total is at least the subtotal and at most 10% (plus one) above it |
| BookingPrice.ShowBreakdown | client/components/booking-form.tsx:167 | the breakdown guard holds exactly when both dates are set and check-out is a later day |
| BookingPrice.ThreeNightExample | client/components/booking-form.tsx:31-47 | a $100 listing for three nights: subtotal 300, fee 30, total 330 |
| ClientBookingForm.BookingForm.constructor | client/components/booking-form.tsx:23-26 | both dates empty, one guest, not loading |
| ClientBookingForm.BookingForm.Breakdown | client/components/booking-form.tsx:167-187 | a breakdown is shown iff both dates are set and check-out is later; it shows nights, nights × price, the rounded tenth and their sum |
| ClientBookingForm.BookingForm.HandleSubmit | client/components/booking-form.tsx:49-89 | without a user nothing is sent, the browser goes to the login page and no state changes; otherwise the dates are sent, a success resets both dates and guests "1", a failure keeps them, and loading ends |
| StayfinderBookingForm.DisplayedTotal | stayfinder/components/booking-form.tsx:120-127 | a total is displayed iff both dates are set, and it is day difference times price with no fee |
| StayfinderBookingForm.ReversedDatesShowNegativeTotal | stayfinder/components/booking-form.tsx:120-127 | with check-out before check-in the displayed total is negative |
| StayfinderBookingForm.BookingForm.constructor | stayfinder/components/booking-form.tsx:22-24 | both dates empty, not loading |
| StayfinderBookingForm.BookingForm.HandleSubmit | stayfinder/components/booking-form.tsx:39-78 | as the other form, resetting both dates on success |
| NewListingPage.ParseList | client/app/host/listings/new/page.tsx:45-53 | each item is the trimmed text of one comma-separated piece and no item is empty; there are no more items than pieces (the order is stated by `ParseListPieces`) |
| NewListingPage.ParseListClean | client/app/host/listings/new/page.tsx:45-48 | no parsed item is empty, has whitespace at either end or holds a comma; there are at most commas + 1 items |
| NewListingPage.ParseListJoin | client/app/host/listings/new/page.tsx:45-53 | parsing clean items joined by commas gives the same items in the same order |
| NewListingPage.DropEmptyAppend | client/app/host/listings/new/page.tsx:48 | dropping the empty items is a filter: it distributes over concatenation and keeps the order |
| NewListingPage.ParseListPieces | client/app/host/listings/new/page.tsx:45-53 | for any line, the items are its comma-separated pieces trimmed, in the order typed, with the blank ones dropped |
| NewListingPage.ParseListCons | client/app/host/listings/new/page.tsx:45-53 | a first piece typed with spaces around it ("wifi, pool") comes out trimmed and first, ahead of the items of the rest of the line, or is dropped when blank |
| NewListingPage.ParseListEmpty | client/app/host/listings/new/page.tsx:45-48 | the list is empty exactly for a line of nothing but commas and whitespace |
| NewListingPage.WithField | client/app/host/listings/new/page.tsx:31-34 | the named field takes the value; every other field is unchanged |
| NewListingPage.NewListing.constructor | client/app/host/listings/new/page.tsx:18-26 | every field of the form empty, not loading |
| NewListingPage.NewListing.HandleChange | client/app/host/listings/new/page.tsx:31-34 | the form becomes `WithField` of the old form |
| NewListingPage.NewListing.HandleSubmit | client/app/host/listings/new/page.tsx:36-79 | without a user nothing is sent and the error is "Please login to create listings"; otherwise amenities and images are both parsed by the same pipeline, success goes to "/host/listings", failure reports the error; loading ends in every case |
| ProfilePage.WithField | client/app/profile/page.tsx:60-67 | the named field takes the value; every other field is unchanged |
| ProfilePage.DateOnly | client/app/profile/page.tsx:44 | the shown date is a prefix of the stored one with no 'T', the whole value when it has no 'T', and "" when absent |
| ProfilePage.FormFromProfile | client/app/profile/page.tsx:40-47 | a missing field shows blank, a present text field shows as stored, and the date shows as the text before the first 'T' of the stored one |
| ProfilePage.Payload | client/app/profile/page.tsx:74-77 | every field but the date is sent with the form's text; the date is sent as typed, or left out exactly when it is empty; loading what is sent gives the form back when its date is a plain date |
| ProfilePage.EmptyProfileShowsBlank | client/app/profile/page.tsx:40-47 | the profile registration creates shows as an all-"" form |
| ProfilePage.SaveThenLoad | client/app/profile/page.tsx:74-77 | saving a form with a plain date and loading again shows the same form |
| ProfilePage.ClearedDateComesBack | client/app/profile/page.tsx:76 | saving with an empty date keeps the stored date, so the next load shows it again |
| ProfilePage.DateOfDateTime | client/app/profile/page.tsx:44 | a stored date-time shows as its date part |
| ProfilePage.ProfilePageState.constructor | client/app/profile/page.tsx:19-32 | no profile, a blank form, loading and not saving |
| ProfilePage.ProfilePageState.LoadProfile | client/app/profile/page.tsx:34-58 | a fetched profile fills the form; without a user or when the fetch fails the form keeps its values; loading ends in every case |
| ProfilePage.ProfilePageState.HandleChange | client/app/profile/page.tsx:60-63 | only the named field changes |
| ProfilePage.ProfilePageState.HandleSelectChange | client/app/profile/page.tsx:65-67 | only the named field changes |
| ProfilePage.ProfilePageState.HandleSubmit | client/app/profile/page.tsx:69-93 | the payload of the form is sent; saving ends whatever the outcome and the form is kept |
| ListingDetail.GalleryImages | client/components/listing-detail.tsx:16 | the placeholder list replaces only a missing image list; an empty list is kept |
| ListingDetail.Next | client/components/listing-detail.tsx:18-20 | the next index stays below the image count |
| ListingDetail.Prev | client/components/listing-detail.tsx:22-24 | the previous index stays below the image count |
| ListingDetail.NextInRange | client/components/listing-detail.tsx:19 | forward from the last image wraps to 0, otherwise it adds one |
| ListingDetail.PrevInRange | client/components/listing-detail.tsx:23 | back from 0 wraps to the last image, otherwise it subtracts one |
| ListingDetail.PrevUndoesNext | client/components/listing-detail.tsx:18-24 | back undoes forward and forward undoes back |
| ListingDetail.FullCycle | client/components/listing-detail.tsx:18-20 | pressing forward once per image returns to the starting image |
| ListingDetail.ShowControls | client/components/listing-detail.tsx:41 | the arrows and dots are shown exactly when every arrow press moves to another image |
| ListingDetail.HostInitial | client/components/listing-detail.tsx:139 | the avatar letter is the first character of the host id, upper-cased; nothing for an empty id |
| ListingDetail.Gallery.constructor | client/components/listing-detail.tsx:15-16 | the gallery starts at the first image |
| ListingDetail.Gallery.CurrentSrc | client/components/listing-detail.tsx:32 | the current image, or "/placeholder.svg" when it is missing or empty |
| ListingDetail.Gallery.NextImage | client/components/listing-detail.tsx:18-20 | the index becomes `Next` of the old one and stays in range |
| ListingDetail.Gallery.PrevImage | client/components/listing-detail.tsx:22-24 | the index becomes `Prev` of the old one and stays in range |
| ListingDetail.Gallery.SelectImage | client/components/listing-detail.tsx:61-68 | the dot of image k sets the index to k |
| ListingCard.MainImage | client/components/listing-card.tsx:15 | the first image when present and non-empty, otherwise the card placeholder; never empty |
| ListingCard.AmenitySummary | client/components/listing-card.tsx:56-70 | no section for a missing or empty list; otherwise the first min(n, 3) names in order, a "+N more" badge iff there are more than three, and N is the number of amenities not shown |
| ListingCard.RatingBadge | client/components/listing-card.tsx:33-40 | the badge appears iff the rating is present and not 0; a rating of 0 leaves the text "0" instead; no rating shows nothing |
| ListingCard.RatingLine | client/components/listing-card.tsx:74-80 | the footer line appears iff the badge does and the review count is present and not 0; a zero rating, or a zero count beside a shown badge, leaves the text "0" |
| UrlParams.Get | client/components/filter-sidebar.tsx:17-18 | nothing iff no entry has the name; otherwise the value of an entry with the name before which no entry has it |
| UrlParams.GetIsFirst | client/components/filter-sidebar.tsx:17-18 | `get` answers the first entry with the name, or nothing |
| UrlParams.SetParam | client/components/filter-sidebar.tsx:33 | the new pair is present, and every other entry was there before and has another name |
| UrlParams.SetParamSpec | client/components/filter-sidebar.tsx:33 | after `set` the name has exactly one entry, holding the value, and every other name keeps its entries |
| UrlParams.DeleteParam | client/components/filter-sidebar.tsx:35 | no entry left has the name, every entry left was there before, and none is added |
| UrlParams.DeleteParamSpec | client/components/filter-sidebar.tsx:35 | after `delete` the name has no entry and every other name keeps its entries |
| UrlParams.SetKeepsOthers | client/components/filter-sidebar.tsx:33 | `set` keeps the entries of other names in their order |
| UrlParams.Serialize | client/components/filter-sidebar.tsx:44 | `toString` of plain entries parses back to the same entries |
| UrlParams.Parse | client/components/filter-sidebar.tsx:30 | whatever the text, the parsed entries hold no '&' and no name holds '=' |
| UrlParams.SearchParams.Empty | stayfinder/components/search-bar.tsx:29 | fresh parameters hold no entry |
| UrlParams.SearchParams.Copy | client/components/filter-sidebar.tsx:30 | the copy holds the same entries |
| UrlParams.SearchParams.Set | client/components/filter-sidebar.tsx:33 | the entries become `SetParam` of the old ones |
| UrlParams.SearchParams.Delete | client/components/filter-sidebar.tsx:35 | the entries become `DeleteParam` of the old ones |
| UrlParams.SearchParams.Append | stayfinder/components/search-bar.tsx:30-32 | the entry is added at the end |
| UrlParams.SearchParams.ToString | client/components/filter-sidebar.tsx:44 | for plain entries the text parses back to the entries held |
| FilterSidebar.PriceParamSpec | client/components/filter-sidebar.tsx:32-42 | a non-empty price text becomes the single entry of its name, an empty one removes the name, and other names are untouched |
| FilterSidebar.SubmittedQuerySpec | client/components/filter-sidebar.tsx:27-45 | after submit each price occurs once with its text when non-empty and not at all otherwise, and every other parameter keeps its entries |
| FilterSidebar.Sidebar.constructor | client/components/filter-sidebar.tsx:17-19 | the texts start from the URL's parameters or "", and the range is [0, 1000] |
| FilterSidebar.Sidebar.HandlePriceRangeChange | client/components/filter-sidebar.tsx:21-25 | the range is set and both texts are the decimal strings of its ends, which read back as the same numbers |
| FilterSidebar.Sidebar.SetMinPrice | client/components/filter-sidebar.tsx:79 | typing sets the minimum text only |
| FilterSidebar.Sidebar.SetMaxPrice | client/components/filter-sidebar.tsx:89 | typing sets the maximum text only |
| FilterSidebar.Sidebar.HandleSubmit | client/components/filter-sidebar.tsx:27-45 | the query is the current parameters with the prices set or deleted, and the target is "/listings?" followed by it |
| FilterSidebar.Sidebar.HandleReset | client/components/filter-sidebar.tsx:47-52 | both texts "", the range [0, 1000], and the target "/listings" with no query |
| SearchBar.BuiltQuerySpec | stayfinder/components/search-bar.tsx:29-32 | the query holds exactly the non-empty texts, once each under their own names, in the order location, minPrice, maxPrice, and nothing else |
| SearchBar.EmptySearch | stayfinder/components/search-bar.tsx:29-34 | with every text empty the target is "/listings?" |
| SearchBar.Bar.constructor | stayfinder/components/search-bar.tsx:21-23 | each text starts from the initial value or "" |
| SearchBar.Bar.HandleSubmit | stayfinder/components/search-bar.tsx:26-35 | appends to fresh, empty parameters build `BuiltQuery`, and the target is "/listings?" followed by it |
| Text.ParseNatToString | client/components/filter-sidebar.tsx:23-24 | the decimal text of a whole number reads back as that number |
| Text.SplitJoin | client/app/host/listings/new/page.tsx:46 | splitting separator-free pieces joined by the separator gives the pieces back |
| Text.TrimSpec | client/app/host/listings/new/page.tsx:47 | `trim` leaves a part of the text with no whitespace at either end, cutting only whitespace |
| SessionJson.Stringify | client/context/auth-context.tsx:50 | the stored text is an object text opening with the id |
| SessionJson.Parse | client/context/auth-context.tsx:33 | only a text opening with the id and closing the object parses to a user |
| SessionJson.ReadEscape | client/context/auth-context.tsx:33 | reading an escaped JSON string body and its closing quote gives the string and the rest of the text back |
| SessionJson.ParseStringify | client/context/auth-context.tsx:33-50 | the stored user text parses back to the same user, whatever characters its id and name hold |
| AuthContext.LocalStorage.GetItem | client/context/auth-context.tsx:28-29 | the stored text for a key, or nothing iff the key is absent |
| AuthContext.LocalStorage.SetItem | client/context/auth-context.tsx:49-50 | the key holds the value and every other key is unchanged |
| AuthContext.LocalStorage.RemoveItem | client/context/auth-context.tsx:71-72 | the key is gone and every other key is unchanged |
| AuthContext.Restore | client/context/auth-context.tsx:28-39 | a user is restored iff both keys hold non-empty text and the user text parses; the pair is discarded iff both are set and the text does not parse |
| AuthContext.SignInSurvivesReload | client/context/auth-context.tsx:26-51 | after a successful sign-in with a non-empty token, a reload restores the same user |
| AuthContext.LogoutSurvivesReload | client/context/auth-context.tsx:70-74 | after a logout a reload restores nobody |
| AuthContext.AuthProvider.constructor | client/context/auth-context.tsx:23-24 | nobody signed in, loading |
| AuthContext.AuthProvider.InitialLoad | client/context/auth-context.tsx:26-42 | the stored user is signed in exactly as `Restore` says, a text that does not parse removes both keys, and loading ends in every case |
| AuthContext.AuthProvider.Login | client/context/auth-context.tsx:44-55 | a failed call rethrows with nothing changed; a successful one stores the token and the serialised user and signs the user in |
| AuthContext.AuthProvider.Register | client/context/auth-context.tsx:57-68 | as login, sending the host flag with default false |
| AuthContext.AuthProvider.Logout | client/context/auth-context.tsx:70-74 | both keys removed and nobody signed in |
| AuthContext.UseAuth | client/context/auth-context.tsx:79-85 | outside a provider the error "useAuth must be used within an AuthProvider", inside it the provider's value |

## Left out

- Database and network. The database is in-memory maps. `populate`, schema
  defaults and validation, and every 500 path (a failed save or query) are not
  modelled.
- Atomicity. In `register` the user can be saved and the profile save then
  fail; this partial failure, and races between requests or double submits,
  are concurrency and failure injection.
- Regex metacharacters. The location filter is a `$regex` with option "i".
  The model treats the pattern as a literal text and folds the case of ASCII
  letters only.
- Query prices. They are whole numbers or absent. `+value` giving `NaN` for a
  non-numeric text is not modelled.
- Booking dates. They are stored as day numbers; Mongoose date casting is not
  modelled.
- Profile owner in a PUT body. A `user` field in the body of `PUT /profile`
  would also be `$set`, which can move a profile onto another user and leave
  that user with two. The body is modelled as the six profile fields only, and
  profiles are a map keyed by user, so one profile per user holds by
  construction here.
- `POST /profile` accepts any caller id. The model does not require that the
  caller is a registered user.
- Mounted routers. server/server.js:17-19 mounts only the auth, listings and
  bookings routers, so in that bootstrap the `/api/profile` routes, and the
  profile page's load and save that call them, are unreachable. The profile
  routes are modelled as written in their own file.
- bcrypt and JWT internals. The key derivation is a parameter, the random salt
  is an argument, and token signature and expiry checking are out. The
  authentication middleware is not part of this model; the caller is the
  token's claims.
- `listing.remove()` is deprecated and may fail at run time. `Delete` models
  the removal it intends.
- Register's `isHost`. The route builds the user without it, so the stored
  flag is the schema default, taken here to be false.
- Register reply shape. The reply's `user` is the whole document, with `_id`
  rather than `id`. The client's session store is modelled on its own `User`
  type, whatever fields the server sent.
- Floating point. The listing price text is sent as text; `parseFloat` is
  not modelled. Booking prices are whole numbers, and millisecond dates,
  time zones and the float error of `subtotal * 0.1` are out.
- JSON. Only the text that `JSON.stringify` writes for the session user is
  parsed. A stored text that is valid JSON in another spelling, or for another
  value, counts as a parse failure here, whereas `JSON.parse` would accept it.
- Percent-encoding. `URLSearchParams.toString` percent-encodes;
  `UrlParams.Serialize` writes names and values as they are.
  `UrlParams.Serialize` states the round trip only for entries without '&' in
  them and without '=' in names.
- Case mapping. Upper-casing the host initial covers ASCII letters only.
- Rendering, toasts, routing and images. The rating values are whatever the
  listing holds, and `NaN` is out. A zero rating or zero review count is
  modelled only as the stray text "0" that React renders for it.
- ListingDetail.Gallery.NextImage: requires more than one image, because the
  arrows exist only then.
- ListingDetail.Gallery.PrevImage: the same.
- ListingDetail.Gallery.SelectImage: the same; with no images, the JavaScript
  index arithmetic would give `NaN`.
