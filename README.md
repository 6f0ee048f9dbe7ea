# Online live auction — bidding core in Dafny

This project models the bidding path of an online auction marketplace.
The marketplace has an Express/Mongoose server and a React client.
The model covers:

- **Auction record** (`schema.dfy`, module `Schema`): the auction document with its status enumeration (`active`, `closed`, default `active`) and its category enumeration (seven names, default `Other`). It also covers which paths are required, creation with defaults, and the `bids` virtual that joins Bid records to their auction.
- **Bid placement** (`ledger.dfy`, module `Ledger`): `POST /bid`. `Check` is the fail-fast validation chain. `Step` is one request over a value of the whole store (auctions, users, Bid and Notification collections). The class `Marketplace` keeps that store in mutable fields; its `PlaceBid` method runs the route step by step and is proved equal to `Step`. `Valid` is the store invariant: every auction agrees with its bid history. That means the starting price and no leader before any bid; after that, the latest bid's amount and bidder, with amounts rising strictly. Every request preserves it, and so does any sequence of requests (`Run`).
- **Listing** (`listing.dfy`, module `Listing`): `GET /`. It builds the query from the optional parameters, keeps the documents that satisfy it, and sorts them by one of four orders.
- **Auction page** (`auction_detail.dfy`, module `AuctionDetail`): the client's bid validation and submit handler, the fetch and `bid-update` updaters, `handleAuctionEnd`, the "ended" test, the watchlist test and the seller link. Lemmas tie the page's rules to the server's.
- **Image carousel** (`carousel.dfy`, module `Carousel`): the normalised image list, the wrap-around arrows, the dots, and what is rendered for zero, one or several images.
- **Filter bar** (`filter_bar.dfy`, module `FilterBar`): the filter record, its one-field updates, the "Hide Ended" checkbox and the category options.
- `text.dfy` (module `Text`) holds decimal rendering of integers with a proved parse-back, ASCII case folding and substring search. `wrappers.dfy` holds `Option` and `Result`.

Modelling choices:

- Time is an integer clock, passed in as `now`. Money is an integer.
- Document ids are strings. An empty `auctionId` stands for a missing one.
- The request's `amount` is `Absent`, `NonNumeric` or `Numeric(n)`: a JSON number, as the client sends it, or a value `Number(...)` cannot read. It is falsy when it is absent or the number 0.
- The client's bid field is `Blank`, `NotANumber`, `NaN` or `Amount(n)`: empty or the number 0, text that is not a number, the number NaN that `Math.max` makes of such text, or the outcome of `parseInt`. A number the page stores itself goes through `AuctionDetail.Number`, which maps 0 to `Blank` because the form's `!bidAmount` test treats the number 0 as empty.
- The signed-in user's id is a parameter. So are the server's reply to the client's post and the clock.

Choices that follow the code:

- The expiry test is strict (`now > endTime`), so a bid at exactly the end time is accepted.
- The unknown-user check comes last, after the price check.
- The threshold is `currentBid || startingBid || 0`. `Ledger.ThresholdIsCurrentBid` shows that this equals `currentBid` in a consistent store.
- `seller` is optional in the schema.
- The outbid Notification is written before the Bid is saved. In a sequential model without storage failures, that order does not change the outcome.

The schema declares no `createdAt` path and no timestamps option. So `Schema.Create` never sets `createdAt` (`Schema.CreateDefaults`). Under the default "newest" order, all such documents tie.

## Model

| member | source | states |
|---|---|---|
| `Schema.StatusNamesRoundTrip` | server/models/Auction.js:20 | the status path accepts exactly "active" and "closed", and names and values convert both ways |
| `Schema.CategoryNamesRoundTrip` | server/models/Auction.js:8-13 | the category path accepts exactly the seven enumerated names, and names and values convert both ways |
| `Schema.AllCategoriesComplete` | server/models/Auction.js:11 | the category list holds every category exactly once |
| `Schema.CreateSucceedsIff` | server/models/Auction.js:3-20 | creation succeeds iff title, description and imageUrl are non-empty, startingBid, currentBid and endTime are set, and any category or status that is given is in its enumeration |
| `Schema.Create` | server/models/Auction.js:3-20 | a failed creation lists at least one and at most eight paths; a created document carries the given id, non-empty title, description and imageUrl, and no creation time |
| `Schema.CreateReportsViolations` | server/models/Auction.js:4-20 | creation fails iff some path offends its rule, and a failed creation lists each of the eight paths iff that path is missing or outside its enumeration |
| `Schema.CreateDefaults` | server/models/Auction.js:7-20 | a created auction keeps the given title, description, imageUrl, images, prices and end time; an unset category becomes Other, an unset status active, unset images empty; optional references are copied; no creation time is set |
| `Schema.BidsOf` | server/models/Auction.js:27-31 | an auction's bids are exactly the stored Bids whose auctionId is its id |
| `Schema.BidsOfAppend` | server/models/Auction.js:27-31 | storing a bid extends the bid list of its own auction and of no other |
| `Ledger.Check` | server/routes/auctions.js:76-109 | the chain passes iff every condition holds (id and non-zero numeric amount given, auction found and active, now ≤ endTime, amount > threshold, user found); a 404 means the auction or the user is unknown |
| `Ledger.Threshold` | server/routes/auctions.js:97 | `currentBid || startingBid || 0` is currentBid when that is non-zero, and startingBid otherwise |
| `Ledger.HttpStatus` | server/routes/auctions.js:76-109 | an unknown auction or user gives 404; every other refusal gives 400 |
| `Ledger.ErrorMessage` | server/routes/auctions.js:76-109 | every message is non-empty; only the price refusal starts with the too-low prefix, and every fixed message is shorter than that prefix |
| `Ledger.ErrorMessagesDistinct` | server/routes/auctions.js:76-109 | no two refusals share a message, so the error text identifies the refusal and its threshold |
| `Ledger.OutbidNotice` | server/routes/auctions.js:120-139 | a notice is due iff the auction has a leader who is found and differs from the bidder; it is an "outbid" notice to that leader about this auction |
| `Ledger.Step` | server/routes/auctions.js:71-173 | rejected iff some check fails, and then the store is unchanged; when accepted, exactly one Bid with the amount, bidder and time is appended, the auction's currentBid and winner become the amount and bidder, the response carries the amount, and at most the one outbid notice is added |
| `Ledger.ThresholdIsCurrentBid` | server/routes/auctions.js:96-97 | in a consistent store the fallback chain yields the current bid |
| `Ledger.StepPreservesValid` | server/routes/auctions.js:111-147 | one request keeps every auction in agreement with its history: price and leader are those of the latest bid, or the starting price and no leader, and amounts rise strictly |
| `Ledger.RunPreservesValid` | server/routes/auctions.js:71-173 | any sequence of requests, handled one at a time, keeps the store consistent |
| `Ledger.AcceptedRaisesPrice` | server/routes/auctions.js:142-167 | an accepted bid raises currentBid strictly; the new currentBid equals the amount and the response; the bidder is the winner |
| `Ledger.OutbidNotificationIff` | server/routes/auctions.js:120-139 | existing notifications are kept; one is added iff the bid is accepted and a found previous leader differs from the bidder, and it goes to that leader |
| `Ledger.NotActiveBeforeExpired` | server/routes/auctions.js:88-94 | a closed auction is refused as not active whatever the time |
| `Ledger.ExpiryBoundary` | server/routes/auctions.js:92-94 | every bid after endTime is refused as expired; one at endTime is not |
| `Ledger.ThresholdBoundary` | server/routes/auctions.js:97-103 | every non-zero bid at or below the threshold is refused with that threshold, whether or not the user is known |
| `Ledger.OneAboveThresholdAccepted` | server/routes/auctions.js:97-150 | one unit above the threshold is accepted from a known user, as the bid of that user at that amount and time, when the state checks pass; the threshold may be 0 |
| `Ledger.TooLowMessageNamesThreshold` | server/routes/auctions.js:99-103 | the too-low message is the fixed prefix followed by the threshold in decimal, which parses back to the threshold |
| `Ledger.RequestChecksFirst` | server/routes/auctions.js:76-86 | a missing id or falsy amount gives MissingFields; otherwise a non-numeric amount gives InvalidAmount; otherwise an unknown auction gives AuctionNotFound |
| `Ledger.UserCheckedLast` | server/routes/auctions.js:105-109 | a request that passes every other check but names an unknown user is refused as UserNotFound, with status 404 |
| `Ledger.Marketplace.PlaceBid` | server/routes/auctions.js:71-173 | the in-place handler produces exactly the store and response of `Step` and keeps the store invariant |
| `Listing.BuildQuery` | server/routes/auctions.js:14-40 | each clause is present iff its parameter is supplied (category also not "All"; the price range when either bound is given), and it carries that parameter's value |
| `Listing.BuildQueryExact` | server/routes/auctions.js:14-40 | the built query is satisfied iff every supplied filter holds: search in title or description ignoring case, status equality, category equality unless empty or "All", inclusive min and max on currentBid |
| `Listing.SortOption` | server/routes/auctions.js:42-45 | "ending_soon", "price_desc" and "price_asc" each select their order; every other value, absent included, selects newest first |
| `Listing.Find` | server/routes/auctions.js:47 | each document occurs in the result as often as it is stored if it satisfies the query, otherwise not at all |
| `Listing.SortBy` | server/routes/auctions.js:42-47 | the result is ordered by the chosen order and is a permutation of its input |
| `Listing.ListAuctions` | server/routes/auctions.js:47-48 | the response is sorted by the selected order, holds only wanted auctions, and takes no document more often than it is stored |
| `Listing.ListingContents` | server/routes/auctions.js:13-48 | the listing holds exactly the stored auctions that every supplied filter accepts, with their multiplicities |
| `Listing.ListingOrder` | server/routes/auctions.js:42-47 | price_asc orders by currentBid ascending, price_desc descending, ending_soon by endTime ascending; any other value orders by creation time descending |
| `Carousel.ImageList` | client/src/components/ImageCarousel.jsx:8 | the list is the images array when that is a non-empty array, otherwise empty |
| `Carousel.NextIndex` | client/src/components/ImageCarousel.jsx:28-30 | the next index is (i + 1) mod len: the last wraps to 0 |
| `Carousel.PrevIndex` | client/src/components/ImageCarousel.jsx:32-34 | the previous index is (i − 1) mod len: 0 wraps to the last |
| `Carousel.ArrowsAreInverse` | client/src/components/ImageCarousel.jsx:28-34 | previous after next, and next after previous, restore the index |
| `Carousel.Render` | client/src/components/ImageCarousel.jsx:10-43 | no images give the placeholder, one image a single image, more a gallery showing the current image with one dot per image |
| `Carousel.ApplyClick` | client/src/components/ImageCarousel.jsx:28-68 | an arrow or dot click keeps the index in range |
| `Carousel.NavigateInRange` | client/src/components/ImageCarousel.jsx:5-68 | any sequence of arrow and dot clicks from a valid index ends at a valid index |
| `Carousel.ImageCarousel.View` | client/src/components/ImageCarousel.jsx:36-43 | with images, the one shown is the one at the current index; the placeholder shows iff there are none; navigation and one dot per image show iff there are two or more |
| `Carousel.ImageCarousel.constructor` | client/src/components/ImageCarousel.jsx:5-8 | the component starts at index 0 over the normalised list |
| `Carousel.ImageCarousel.NextImage` | client/src/components/ImageCarousel.jsx:28-30 | the right arrow moves the index to NextIndex and keeps it in range |
| `Carousel.ImageCarousel.PrevImage` | client/src/components/ImageCarousel.jsx:32-34 | the left arrow moves the index to PrevIndex and keeps it in range |
| `Carousel.ImageCarousel.SelectDot` | client/src/components/ImageCarousel.jsx:65-68 | a dot selects its own index |
| `FilterBar.With` | client/src/components/FilterBar.jsx:20 | the updated record has the new value at the key and the old value at every other key |
| `FilterBar.WithLaws` | client/src/components/FilterBar.jsx:20 | writing a field's own value changes nothing; a second write to a field overrides the first |
| `FilterBar.HideEndedStatus` | client/src/components/FilterBar.jsx:135-139 | checked asks for the schema's "active" status, unchecked for no status filter |
| `FilterBar.CategoryOptionsMatchSchema` | client/src/components/FilterBar.jsx:17 | the options are "All" followed by the schema's seven categories in order, each accepted by the schema |
| `FilterBar.FilterPanel.constructor` | client/src/components/FilterBar.jsx:5-15 | filters start as search "", category "All", prices "", sort "newest", status ""; the checkbox starts off |
| `FilterBar.FilterPanel.HandleChange` | client/src/components/FilterBar.jsx:19-31 | only the key changes; for every key but search, the parent is notified at once with exactly the new record |
| `FilterBar.FilterPanel.ToggleHideEnded` | client/src/components/FilterBar.jsx:135-139 | the checkbox sets the flag and the status filter, and notifies the parent |
| `FilterBar.FilterPanel.HandleSearch` | client/src/components/FilterBar.jsx:48-59 | only the search field changes; nothing is notified at once |
| `AuctionDetail.ValidateBid` | client/src/components/AuctionDetail.jsx:84-98 | blank input or a stored NaN gives the empty message; non-numeric text or ≤ 0 the invalid message; ≤ currentBid a message naming currentBid; otherwise accepted, and acceptance holds iff the amount is positive and above currentBid |
| `AuctionDetail.ValidateBidMatchesServer` | client/src/components/AuctionDetail.jsx:93-96 | for a positive amount against a consistent store, the form accepts iff the server's price check passes |
| `AuctionDetail.ApplyBidUpdate` | client/src/components/AuctionDetail.jsx:48-52 | only currentBid and bids change; bids gain the event's bid in front and keep at most ten |
| `AuctionDetail.Number` | client/src/components/AuctionDetail.jsx:85-86 | a stored number reads as blank iff it is 0, and as that amount otherwise |
| `AuctionDetail.RaiseBidAmount` | client/src/components/AuctionDetail.jsx:53 | a positive bid amount becomes at least newBid + 10 and never decreases; a maximum of 0 leaves the field blank, as the number 0 is falsy; a field holding no number becomes NaN |
| `AuctionDetail.RaisedNonNumberReadsEmpty` | client/src/components/AuctionDetail.jsx:85-87 | after a live update, a field that held no number is reported as empty on the next submit |
| `AuctionDetail.IsEnded` | client/src/components/AuctionDetail.jsx:209 | a closed auction is ended at any time; an active one is ended iff the clock is past its end time |
| `AuctionDetail.EndedStaysEnded` | client/src/components/AuctionDetail.jsx:209 | once ended, an auction stays ended at every later time |
| `AuctionDetail.IsEndedMatchesServer` | client/src/components/AuctionDetail.jsx:209 | the page shows the auction as ended iff the server would refuse a bid that reaches its state checks as not active or expired |
| `AuctionDetail.CloseOnEnd` | client/src/components/AuctionDetail.jsx:138-140 | the end of the countdown sets status to closed and nothing else; the auction then counts as ended |
| `AuctionDetail.IsWatched` | client/src/components/AuctionDetail.jsx:74 | the auction is watched iff some entry carries its id, as a populated auction or as a bare id |
| `AuctionDetail.SellerLinkId` | client/src/components/AuctionDetail.jsx:246 | the link uses the seller's id whether the seller is embedded or a bare id, and the text "undefined" when there is no seller |
| `AuctionDetail.CarouselImages` | client/src/components/AuctionDetail.jsx:220 | the carousel gets the auction's images when there are any, otherwise its main image alone; never nothing |
| `AuctionDetail.PageCarouselShowsAnImage` | client/src/components/AuctionDetail.jsx:219-222 | the page's carousel never shows the placeholder; without extra images it shows the main image alone |
| `AuctionDetail.FailureMessage` | client/src/components/AuctionDetail.jsx:130 | a failed post shows the server's error text, or a fixed message when there is none |
| `AuctionDetail.AuctionPage.constructor` | client/src/components/AuctionDetail.jsx:19-25 | the page starts unloaded and loading, with an empty bid field and no error |
| `AuctionDetail.AuctionPage.OnFetched` | client/src/components/AuctionDetail.jsx:29-33 | a fetched auction is shown and the bid field becomes the number currentBid + 10 (blank when that is 0) |
| `AuctionDetail.AuctionPage.OnInput` | client/src/components/AuctionDetail.jsx:358-361 | typing sets the bid field and clears the error |
| `AuctionDetail.AuctionPage.OnBidUpdate` | client/src/components/AuctionDetail.jsx:46-59 | an event for another auction changes nothing; a matching one applies `ApplyBidUpdate` and `RaiseBidAmount` |
| `AuctionDetail.AuctionPage.HandleAuctionEnd` | client/src/components/AuctionDetail.jsx:138-140 | the auction becomes closed and nothing else changes |
| `AuctionDetail.AuctionPage.OnWatchlist` | client/src/components/AuctionDetail.jsx:67-82 | the watched flag becomes the membership test |
| `AuctionDetail.AuctionPage.HandleBid` | client/src/components/AuctionDetail.jsx:100-136 | a request is sent iff a user is signed in and validation passes, with the validated amount; without a user or with a failed validation the matching error is shown; after a successful post the bid field becomes the sent amount + 10; a failed post shows its message; bidding is off at the end |

## Left out

- Concurrent bid handling: the route reads, compares, then writes without a condition (server/routes/auctions.js:85, 99, 147). The model handles one request at a time, so lost updates between concurrent handlers are not represented.
- The expiry sweep: `closeExpiredAuctions` in server/utils/auctionUtils is not part of this model. The `POST /close-expired` route only calls it.
- The socket broadcast (`req.io.emit`), the client's socket subscription, the ten-second polling and the bid animation timer: network and timer plumbing.
- The outbid e-mail (`sendEmail`): outbound I/O whose failure is ignored.
- Authentication: the signed-in user's id is a parameter.
- Storage and cast failures (HTTP 500): a malformed id, or a failed save after the notification is written, is not modelled.
- The Bid, User and Notification models are not part of this model. Their fields are the ones the bid route writes. The Notification's read flag is not modelled.
- `GET /:id` and its `populate("bids")`: only the join itself is modelled, as `Schema.BidsOf`.
- JavaScript number coercion: amounts are whole JSON numbers, as the client sends them, and stay below 2^53, where JavaScript numbers are exact. A string amount such as "0", which passes the route's `!amount` test before `Number` reads it, is not modelled. Neither are fractional amounts, inputs where `Number` and `parseInt` disagree (exponents, trailing text), or a non-numeric price bound.
- MongoDB `$regex`: the search term is matched as a plain substring with ASCII case folding. Regex metacharacters and Unicode case folding are not modelled.
- Listing.SortBy: ties are put in one fixed order, but the database leaves their order unspecified; only sortedness and the permutation are claimed.
- FilterBar.FilterPanel.HandleSearch: the 600 ms debounce that later passes the record to the parent is not modelled. Neither is the 500 ms delayed notification of `handleChange('search')`.
- `handleSearchChange` (client/src/components/FilterBar.jsx:34-40) is not attached to any control.
- AuctionDetail.AuctionPage.OnBidUpdate: requires a loaded auction. An event that arrives before the first fetch is not modelled: the updater reads `prev.bids` on a null auction, which throws.
- AuctionDetail.SellerLinkId: a `null` seller, for which the page throws, is not modelled.
- AuctionDetail.AuctionPage.HandleBid: describes the state once the request has ended. The in-flight period, while `bidding` is true and the button is disabled, is not modelled.
- `toggleWatchlist` and `handleShare`: network and clipboard I/O.
- Carousel.ImageCarousel.constructor: the image list is fixed for the component's lifetime. A changed `images` property that leaves a stale index is not modelled.
- `server/routes/reviews.js`, `SellerPublicProfile.jsx` (floating-point averages) and the UI-only files: outside the bidding core.
- The store invariant `Ledger.Valid` depends on auction creation (not part of the server routes modelled) giving currentBid = startingBid ≥ 0 and no winner.
