/**
 * The auction page of the client: the bid form's validation and submit
 * handler, the reducers that apply a fetched auction and a live
 * `bid-update` event, the end-of-auction test, the watchlist membership
 * test and the seller link. Where the page mirrors a server rule, a lemma
 * relates the two.
 */
module AuctionDetail {
  import opened Wrappers
  import opened Text
  import opened Schema
  import Ledger
  import Carousel

  /** The bid field as `validateBid` sees it: blank (empty, only white space,
      or the number 0), text that is not a number, the number NaN that
      `Math.max` yields for such text, or a whole amount (after `parseInt`). */
  datatype BidInput = Blank | NotANumber | NaN | Amount(value: int)

  /** The field holds no number: text that is not one, or NaN. */
  predicate NotNumeric(b: BidInput) {
    b.NotANumber? || b.NaN?
  }

  /** A number the page computes and stores in the bid field: the number 0 is
      falsy, so the form treats it as blank. */
  function Number(n: int): (r: BidInput)
    ensures r.Blank? <==> n == 0
    ensures n != 0 ==> r == Amount(n)
    ensures !NotNumeric(r)
  {
    if n == 0 then Blank else Amount(n)
  }

  /** The `seller` field as it arrives: a populated object, a bare id, or absent. */
  datatype SellerField = EmbeddedSeller(id: Id, sellername: string) | SellerId(id: Id) | NoSeller

  /** The auction as the page holds it: the JSON of the auction with its bids,
      in stored order as fetched; a live update puts the new bid in front. */
  datatype AuctionView = AuctionView(
    id: Id,
    title: string,
    description: string,
    imageUrl: string,
    images: seq<string>,
    startingBid: int,
    currentBid: int,
    endTime: int,
    status: Status,
    seller: SellerField,
    bids: seq<Bid>)

  const EmptyBidMessage: string := "Bid amount cannot be empty"
  const InvalidBidMessage: string := "Please enter a valid bid amount"
  const LoginMessage: string := "Please login to place a bid"
  const PostFailedMessage: string := "Failed to place bid"
  const LowBidPrefix: string := "Bid must be higher than current highest bid of $"

  /** The form's checks, in order: blank, not a positive number, not above the current bid. */
  function ValidateBid(input: BidInput, currentBid: int): (r: Result<int, string>)
    ensures r.Success? <==> input.Amount? && input.value > 0 && input.value > currentBid
    ensures r.Success? ==> r.value == input.value
    ensures input.Blank? || input.NaN? ==> r == Failure(EmptyBidMessage)
    ensures input.NotANumber? || (input.Amount? && input.value <= 0) ==> r == Failure(InvalidBidMessage)
    ensures input.Amount? && 0 < input.value <= currentBid ==>
      r == Failure(LowBidPrefix + IntToDecimal(currentBid))
  {
    if input.Blank? || input.NaN? then Failure(EmptyBidMessage)
    else if input.NotANumber? || input.value <= 0 then Failure(InvalidBidMessage)
    else if input.value <= currentBid then Failure(LowBidPrefix + IntToDecimal(currentBid))
    else Success(input.value)
  }

  /** Against a consistent server store, the form accepts a positive amount
      exactly when the server's price check would. */
  lemma ValidateBidMatchesServer(s: Ledger.Store, id: Id, n: int)
    requires Ledger.Valid(s) && id in s.auctions && n > 0
    ensures ValidateBid(Amount(n), s.auctions[id].currentBid).Success? <==> n > Ledger.Threshold(s.auctions[id])
  {
    Ledger.ThresholdIsCurrentBid(s.auctions[id], BidsOf(id, s.bids));
  }

  /** The live event broadcast for an accepted bid. */
  datatype BidUpdate = BidUpdate(auctionId: Id, newBid: int, bidder: string, history: Bid)

  function Min(a: int, b: int): int {
    if a <= b then a else b
  }

  /** The auction updater of a matching `bid-update`: the new price, and the
      event's bid put in front of the history, keeping at most ten. */
  function ApplyBidUpdate(prev: AuctionView, e: BidUpdate): (r: AuctionView)
    ensures r == prev.(currentBid := e.newBid, bids := r.bids)
    ensures |r.bids| == Min(10, |prev.bids| + 1)
    ensures r.bids[0] == e.history
    ensures forall i :: 1 <= i < |r.bids| ==> r.bids[i] == prev.bids[i - 1]
  {
    prev.(currentBid := e.newBid, bids := ([e.history] + prev.bids)[..Min(10, |prev.bids| + 1)])
  }

  /** The bid-amount updater of a matching `bid-update`: `Math.max(prev, newBid + 10)`.
      A blank input counts as 0; a field holding no number gives NaN, which
      the form then treats as blank; a maximum of 0 is the number 0, which
      the form treats as blank too. */
  function RaiseBidAmount(prev: BidInput, newBid: int): (r: BidInput)
    ensures NotNumeric(prev) <==> r.NaN?
    ensures !r.NotANumber?
    ensures r.Amount? ==> r.value >= newBid + 10 && r.value != 0
    ensures r.Amount? ==> r.value == newBid + 10 || (prev.Amount? && r.value == prev.value)
    ensures prev.Amount? && prev.value > 0 ==> r.Amount? && r.value >= prev.value
    ensures newBid + 10 > 0 && !NotNumeric(prev) ==> r.Amount?
    ensures r.Blank? <==> !NotNumeric(prev) && newBid + 10 <= 0 && (prev.Blank? || prev.value <= 0)
                          && (newBid + 10 == 0 || prev.Blank? || prev.value == 0)
  {
    match prev
    case Amount(p) => Number(if p >= newBid + 10 then p else newBid + 10)
    case Blank => Number(if 0 >= newBid + 10 then 0 else newBid + 10)
    case NotANumber => NaN
    case NaN => NaN
  }

  /** After a live update, a field that held no number can only be reported as empty. */
  lemma RaisedNonNumberReadsEmpty(prev: BidInput, newBid: int, currentBid: int)
    requires NotNumeric(prev)
    ensures ValidateBid(RaiseBidAmount(prev, newBid), currentBid) == Failure(EmptyBidMessage)
  {
  }

  /** The auction has ended once the clock is past its end time or it is closed. */
  function IsEnded(now: int, a: AuctionView): (r: bool)
    ensures a.status == Closed ==> r
    ensures a.status == Active ==> (r <==> now > a.endTime)
  {
    now > a.endTime || a.status == Closed
  }

  /** The page's "ended" test is the server's pair of state checks: for a bid
      that reaches them, the page shows the auction as ended exactly when the
      server would refuse the bid as not active or expired. */
  lemma IsEndedMatchesServer(s: Ledger.Store, userId: Id, req: Ledger.BidRequest, now: int, v: AuctionView)
    requires req.auctionId != "" && req.amount.Numeric? && req.amount.value != 0
    requires req.auctionId in s.auctions
    requires v.status == s.auctions[req.auctionId].status && v.endTime == s.auctions[req.auctionId].endTime
    ensures IsEnded(now, v) <==>
      Ledger.Step(s, userId, req, now).1 in {Ledger.Rejected(Ledger.NotActive), Ledger.Rejected(Ledger.Expired)}
  {
  }

  /** Once ended, an auction stays ended as the clock moves on. */
  lemma EndedStaysEnded(now: int, later: int, a: AuctionView)
    requires now <= later && IsEnded(now, a)
    ensures IsEnded(later, a)
  {
  }

  /** `handleAuctionEnd`: the countdown's end closes the auction on the page and changes nothing else. */
  function CloseOnEnd(prev: AuctionView): (r: AuctionView)
    ensures r.status == Closed && r == prev.(status := r.status)
    ensures forall now :: IsEnded(now, r)
  {
    prev.(status := Closed)
  }

  /** An entry of the watchlist: a populated auction or a bare auction id. */
  datatype WatchEntry = WatchedAuction(auctionId: Id) | WatchedId(rawId: Id)

  predicate EntryIs(e: WatchEntry, id: Id) {
    match e
    case WatchedAuction(x) => x == id
    case WatchedId(x) => x == id
  }

  /** `res.data.some(item => item._id === id || item === id)`. */
  function IsWatched(list: seq<WatchEntry>, id: Id): (r: bool)
    ensures r <==> exists i :: 0 <= i < |list| && EntryIs(list[i], id)
    decreases |list|
  {
    if list == [] then false
    else EntryIs(list[0], id) || IsWatched(list[1..], id)
  }

  /** The id in the seller link: the embedded seller's id, the bare id, or the
      text "undefined" when the auction carries no seller. */
  function SellerLinkId(s: SellerField): (r: string)
    ensures !s.NoSeller? ==> r == s.id
    ensures s.NoSeller? ==> r == "undefined"
  {
    match s
    case EmbeddedSeller(id, _) => id
    case SellerId(id) => id
    case NoSeller => "undefined"
  }

  /** The images handed to the carousel: the auction's images, or its main image alone. */
  function CarouselImages(a: AuctionView): (r: seq<string>)
    ensures |r| >= 1
    ensures |a.images| > 0 ==> r == a.images
  {
    if |a.images| > 0 then a.images else [a.imageUrl]
  }

  /** The page's carousel never shows the placeholder; an auction without extra
      images shows its main image alone, without navigation. */
  lemma PageCarouselShowsAnImage(a: AuctionView)
    ensures Carousel.ImageList(Some(CarouselImages(a))) == CarouselImages(a)
    ensures !Carousel.Render(CarouselImages(a), 0).Placeholder?
    ensures |a.images| == 0 ==> Carousel.Render(CarouselImages(a), 0) == Carousel.SingleImage(a.imageUrl)
  {
  }

  /** What the bid request came back with: success, or a failure carrying the server's error text if any. */
  datatype PostOutcome = PostOk | PostFailed(serverError: Option<string>)

  /** `err.response?.data?.error || "Failed to place bid"`. */
  function FailureMessage(serverError: Option<string>): (m: string)
    ensures m != ""
    ensures serverError.Some? && serverError.value != "" ==> m == serverError.value
    ensures !(serverError.Some? && serverError.value != "") ==> m == PostFailedMessage
  {
    if serverError.Some? && serverError.value != "" then serverError.value else PostFailedMessage
  }

  /** The page's state for one auction id. */
  class AuctionPage {
    const id: Id
    var auction: Option<AuctionView>
    var bidAmount: BidInput
    var error: string
    var loading: bool
    var bidding: bool
    var isInWatchlist: bool

    constructor (id: Id)
      ensures this.id == id && auction.None? && bidAmount == Blank && error == ""
      ensures loading && !bidding && !isInWatchlist
    {
      this.id := id;
      auction := None;
      bidAmount := Blank;
      error := "";
      loading := true;
      bidding := false;
      isInWatchlist := false;
    }

    /** A fetch of the auction succeeded: show it and propose ten above its price. */
    method OnFetched(data: AuctionView)
      modifies this
      ensures auction == Some(data) && bidAmount == Number(data.currentBid + 10) && !loading
      ensures error == old(error) && bidding == old(bidding) && isInWatchlist == old(isInWatchlist)
    {
      auction := Some(data);
      bidAmount := Number(data.currentBid + 10);
      loading := false;
    }

    /** The user typed in the bid field. */
    method OnInput(value: BidInput)
      modifies this
      ensures bidAmount == value && error == ""
      ensures auction == old(auction) && bidding == old(bidding) && loading == old(loading)
      ensures isInWatchlist == old(isInWatchlist)
    {
      bidAmount := value;
      error := "";
    }

    /** A `bid-update` arrived on the socket. Events for other auctions change nothing. */
    method OnBidUpdate(e: BidUpdate)
      requires e.auctionId == id ==> auction.Some?
      modifies this
      ensures e.auctionId != id ==> auction == old(auction) && bidAmount == old(bidAmount)
      ensures e.auctionId == id ==>
        auction == Some(ApplyBidUpdate(old(auction).value, e)) && bidAmount == RaiseBidAmount(old(bidAmount), e.newBid)
      ensures error == old(error) && bidding == old(bidding) && loading == old(loading)
      ensures isInWatchlist == old(isInWatchlist)
    {
      if e.auctionId == id {
        auction := Some(ApplyBidUpdate(auction.value, e));
        bidAmount := RaiseBidAmount(bidAmount, e.newBid);
      }
    }

    /** The countdown reached the end time. */
    method HandleAuctionEnd()
      requires auction.Some?
      modifies this
      ensures auction == Some(CloseOnEnd(old(auction).value))
      ensures bidAmount == old(bidAmount) && error == old(error) && bidding == old(bidding)
      ensures loading == old(loading) && isInWatchlist == old(isInWatchlist)
    {
      auction := Some(auction.value.(status := Closed));
    }

    /** The watchlist of the signed-in user arrived. */
    method OnWatchlist(list: seq<WatchEntry>)
      modifies this
      ensures isInWatchlist == IsWatched(list, id)
      ensures auction == old(auction) && bidAmount == old(bidAmount) && error == old(error)
      ensures bidding == old(bidding) && loading == old(loading)
    {
      isInWatchlist := IsWatched(list, id);
    }

    /** The bid form was submitted by `user` (absent when signed out); `outcome`
        is how the request would end if one is sent. Returns the amount sent, if any. */
    method HandleBid(user: Option<Id>, outcome: PostOutcome) returns (sent: Option<int>)
      requires auction.Some?
      modifies this
      ensures var v := ValidateBid(old(bidAmount), old(auction).value.currentBid);
        && (sent.Some? <==> user.Some? && v.Success?)
        && (sent.Some? ==> sent.value == v.value)
        && (user.None? ==> error == LoginMessage)
        && (user.Some? && v.Failure? ==> error == v.error)
        && (sent.Some? && outcome.PostOk? ==> error == "")
        && (sent.Some? && outcome.PostFailed? ==> error == FailureMessage(outcome.serverError))
      ensures bidAmount == if sent.Some? && outcome.PostOk? then Amount(sent.value + 10) else old(bidAmount)
      ensures sent.Some? ==> !bidding
      ensures sent.None? ==> bidding == old(bidding)
      ensures auction == old(auction) && loading == old(loading) && isInWatchlist == old(isInWatchlist)
    {
      if user.None? {
        error := LoginMessage;
        return None;
      }
      error := "";
      var check := ValidateBid(bidAmount, auction.value.currentBid);
      if check.Failure? {
        error := check.error;
        return None;
      }
      var amountToSend := check.value;
      bidding := true;
      sent := Some(amountToSend);
      if outcome.PostOk? {
        bidAmount := Amount(amountToSend + 10);
      } else {
        error := FailureMessage(outcome.serverError);
      }
      bidding := false;
    }
  }
}
