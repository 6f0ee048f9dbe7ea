/**
 * The bid path of the auction server (`POST /bid`): a fail-fast chain of
 * checks followed by a single update that records the bid, moves the
 * auction's current bid and leader, and notifies a displaced leader.
 *
 * `Step` is the specification of one request over a value of the whole
 * store; `Marketplace.PlaceBid` performs the same request step by step on
 * mutable fields and is proved to agree with it.
 */
module Ledger {
  import opened Wrappers
  import opened Text
  import opened Schema

  /** The `amount` of the request body, after `Number(...)`: absent, not a number, or an integer. */
  datatype AmountField = Absent | NonNumeric | Numeric(value: int)

  /** JavaScript falsiness of the amount: missing, or the number 0. */
  predicate Falsy(a: AmountField) {
    a.Absent? || (a.Numeric? && a.value == 0)
  }

  /** The request body; an empty `auctionId` stands for a missing one. */
  datatype BidRequest = BidRequest(auctionId: Id, amount: AmountField)

  datatype User = User(id: Id, username: string, email: string)

  datatype Notification = Notification(userId: Id, auctionId: Id, kind: string, message: string)

  datatype BidError =
    | MissingFields
    | InvalidAmount
    | AuctionNotFound
    | NotActive
    | Expired
    | TooLow(threshold: int)
    | UserNotFound

  /** The status code of each refusal: 404 for a missing document, 400 otherwise. */
  function HttpStatus(e: BidError): (r: int)
    ensures r == 404 <==> e.AuctionNotFound? || e.UserNotFound?
    ensures r == 400 <==> !(e.AuctionNotFound? || e.UserNotFound?)
  {
    match e
    case AuctionNotFound => 404
    case UserNotFound => 404
    case _ => 400
  }

  const TooLowPrefix: string := "Bid must be higher than current bid: $"

  /** The `error` text of each refusal. Only the price refusal carries a value,
      after a prefix longer than every fixed message. */
  function ErrorMessage(e: BidError): (r: string)
    ensures r != ""
    ensures e.TooLow? ==> |r| > |TooLowPrefix| && r[..|TooLowPrefix|] == TooLowPrefix
    ensures !e.TooLow? ==> |r| < |TooLowPrefix|
  {
    match e
    case MissingFields => "Auction ID and bid amount required"
    case InvalidAmount => "Bid amount must be a valid number"
    case AuctionNotFound => "Auction not found"
    case NotActive => "Auction is not active"
    case Expired => "Auction has expired"
    case TooLow(t) => TooLowPrefix + IntToDecimal(t)
    case UserNotFound => "User not found"
  }

  datatype BidResponse = Accepted(bid: Bid, currentBid: int) | Rejected(error: BidError)

  /** Everything the bid route reads or writes: auctions and users by id,
      and the append-only Bid and Notification collections. */
  datatype Store = Store(
    auctions: map<Id, Auction>,
    users: map<Id, User>,
    bids: seq<Bid>,
    notifications: seq<Notification>)

  /** The amount a bid must exceed: `currentBid || startingBid || 0`. */
  function Threshold(a: Auction): (r: int)
    ensures a.currentBid != 0 ==> r == a.currentBid
    ensures a.currentBid == 0 ==> r == a.startingBid
  {
    if a.currentBid != 0 then a.currentBid
    else if a.startingBid != 0 then a.startingBid
    else 0
  }

  /** Every condition the route tests, as one conjunction. */
  predicate GatesPass(s: Store, userId: Id, req: BidRequest, now: int) {
    && req.auctionId != "" && !Falsy(req.amount) && req.amount.Numeric?
    && req.auctionId in s.auctions
    && s.auctions[req.auctionId].status == Active
    && now <= s.auctions[req.auctionId].endTime
    && req.amount.value > Threshold(s.auctions[req.auctionId])
    && userId in s.users
  }

  /** The fail-fast validation chain; the first failing check decides the error. */
  function Check(s: Store, userId: Id, req: BidRequest, now: int): (r: Result<int, BidError>)
    ensures r.Success? <==> GatesPass(s, userId, req, now)
    ensures r.Success? ==> r.value == req.amount.value
    ensures r.Failure? && HttpStatus(r.error) == 404 ==>
      req.auctionId !in s.auctions || userId !in s.users
  {
    if req.auctionId == "" || Falsy(req.amount) then Failure(MissingFields)
    else if req.amount.NonNumeric? then Failure(InvalidAmount)
    else if req.auctionId !in s.auctions then Failure(AuctionNotFound)
    else
      var a := s.auctions[req.auctionId];
      if a.status != Active then Failure(NotActive)
      else if now > a.endTime then Failure(Expired)
      else if req.amount.value <= Threshold(a) then Failure(TooLow(Threshold(a)))
      else if userId !in s.users then Failure(UserNotFound)
      else Success(req.amount.value)
  }

  /** The notification owed to the leader `a.winner` when `bidder` takes the lead:
      only when that leader exists, is found, and is someone else. */
  function OutbidNotice(users: map<Id, User>, a: Auction, bidder: User): (n: Option<Notification>)
    ensures n.Some? <==> a.winner.Some? && a.winner.value in users && users[a.winner.value].id != bidder.id
    ensures n.Some? ==> n.value.userId == users[a.winner.value].id && n.value.auctionId == a.id
                        && n.value.kind == "outbid"
  {
    if a.winner.Some? && a.winner.value in users && users[a.winner.value].id != bidder.id then
      Some(Notification(users[a.winner.value].id, a.id, "outbid", "You were outbid on " + a.title + "!"))
    else None
  }

  function NoticeList(n: Option<Notification>): seq<Notification> {
    if n.Some? then [n.value] else []
  }

  /** One bid request against the store: the new store and the response. */
  function Step(s: Store, userId: Id, req: BidRequest, now: int): (r: (Store, BidResponse))
    ensures r.1.Rejected? <==> !GatesPass(s, userId, req, now)
    ensures r.1.Rejected? ==> r.0 == s && r.1.error == Check(s, userId, req, now).error
    ensures r.1.Accepted? ==>
      var a := s.auctions[req.auctionId];
      var user := s.users[userId];
      && r.1.bid == Bid(req.auctionId, user.id, user.username, req.amount.value, now)
      && r.1.currentBid == req.amount.value > Threshold(a)
      && r.0.bids == s.bids + [r.1.bid]
      && r.0.auctions == s.auctions[req.auctionId := a.(currentBid := req.amount.value, winner := Some(user.id))]
      && r.0.users == s.users
      && r.0.notifications == s.notifications + NoticeList(OutbidNotice(s.users, a, user))
  {
    match Check(s, userId, req, now)
    case Failure(e) => (s, Rejected(e))
    case Success(amount) =>
      var a := s.auctions[req.auctionId];
      var user := s.users[userId];
      var bid := Bid(req.auctionId, user.id, user.username, amount, now);
      var updated := a.(currentBid := amount, winner := Some(user.id));
      (Store(s.auctions[req.auctionId := updated], s.users,
             s.bids + [bid], s.notifications + NoticeList(OutbidNotice(s.users, a, user))),
       Accepted(bid, amount))
  }

  predicate StrictlyIncreasing(h: seq<Bid>) {
    forall i, j :: 0 <= i < j < |h| ==> h[i].amount < h[j].amount
  }

  /** An auction agrees with its bid history: no bids means the starting price
      and no leader; otherwise the latest bid gives the price and the leader.
      Every bid exceeds the (non-negative) starting price and the history rises strictly. */
  predicate AgreesWithHistory(a: Auction, h: seq<Bid>) {
    && 0 <= a.startingBid
    && (h == [] ==> a.currentBid == a.startingBid && a.winner.None?)
    && (h != [] ==> a.currentBid == h[|h| - 1].amount && a.winner == Some(h[|h| - 1].userId))
    && (forall i :: 0 <= i < |h| ==> a.startingBid < h[i].amount)
    && StrictlyIncreasing(h)
  }

  /** The store invariant: documents are keyed by their own ids and every
      auction agrees with its bid history. */
  predicate Valid(s: Store) {
    && (forall k :: k in s.auctions ==> s.auctions[k].id == k)
    && (forall k :: k in s.users ==> s.users[k].id == k)
    && (forall k :: k in s.auctions ==> AgreesWithHistory(s.auctions[k], BidsOf(k, s.bids)))
  }

  /** In a consistent store the fallback chain is never taken: the threshold is the current bid. */
  lemma ThresholdIsCurrentBid(a: Auction, h: seq<Bid>)
    requires AgreesWithHistory(a, h)
    ensures Threshold(a) == a.currentBid
  {
    if h != [] {
      assert a.startingBid < h[|h| - 1].amount;
    }
  }

  /** The latest bid of a rising history is its largest. */
  lemma LastIsMax(h: seq<Bid>, i: int)
    requires StrictlyIncreasing(h) && 0 <= i < |h|
    ensures h[i].amount <= h[|h| - 1].amount
  {
  }

  lemma ExtendHistory(a: Auction, h: seq<Bid>, b: Bid)
    requires AgreesWithHistory(a, h)
    requires b.amount > a.currentBid
    ensures AgreesWithHistory(a.(currentBid := b.amount, winner := Some(b.userId)), h + [b])
  {
    var h' := h + [b];
    forall i | 0 <= i < |h'|
      ensures a.startingBid < h'[i].amount
    {
      if i == |h| {
        if h != [] { assert a.startingBid < h[|h| - 1].amount; }
      }
    }
    forall i, j | 0 <= i < j < |h'|
      ensures h'[i].amount < h'[j].amount
    {
      if j == |h| { LastIsMax(h, i); }
    }
  }

  /** Replacing one auction by one that agrees with its extended history keeps
      every auction in agreement once the new bid is stored. */
  lemma UpdateKeepsAgreement(auctions: map<Id, Auction>, bids: seq<Bid>, id: Id, a': Auction, b: Bid)
    requires forall k :: k in auctions ==> AgreesWithHistory(auctions[k], BidsOf(k, bids))
    requires b.auctionId == id
    requires AgreesWithHistory(a', BidsOf(id, bids) + [b])
    ensures forall k :: k in auctions[id := a'] ==> AgreesWithHistory(auctions[id := a'][k], BidsOf(k, bids + [b]))
  {
    forall k | k in auctions[id := a']
      ensures AgreesWithHistory(auctions[id := a'][k], BidsOf(k, bids + [b]))
    {
      BidsOfAppend(k, bids, b);
    }
  }

  /** One request keeps the store consistent. */
  lemma StepPreservesValid(s: Store, userId: Id, req: BidRequest, now: int)
    requires Valid(s)
    ensures Valid(Step(s, userId, req, now).0)
  {
    var r := Step(s, userId, req, now);
    if r.1.Accepted? {
      var id := req.auctionId;
      var a := s.auctions[id];
      var b := r.1.bid;
      var h := BidsOf(id, s.bids);
      assert s.users[userId].id == userId;
      ThresholdIsCurrentBid(a, h);
      ExtendHistory(a, h, b);
      UpdateKeepsAgreement(s.auctions, s.bids, id, a.(currentBid := b.amount, winner := Some(b.userId)), b);
    }
  }

  /** An accepted bid raises the current bid strictly, and the response reports the new price. */
  lemma AcceptedRaisesPrice(s: Store, userId: Id, req: BidRequest, now: int)
    requires Valid(s)
    requires Step(s, userId, req, now).1.Accepted?
    ensures var r := Step(s, userId, req, now);
      && r.0.auctions[req.auctionId].currentBid > s.auctions[req.auctionId].currentBid
      && r.0.auctions[req.auctionId].currentBid == r.1.currentBid == req.amount.value
      && r.0.auctions[req.auctionId].winner == Some(userId)
  {
    var id := req.auctionId;
    ThresholdIsCurrentBid(s.auctions[id], BidsOf(id, s.bids));
  }

  /** A displaced leader gets exactly one notification, and only a displaced leader gets one. */
  lemma OutbidNotificationIff(s: Store, userId: Id, req: BidRequest, now: int)
    requires Valid(s)
    ensures var r := Step(s, userId, req, now);
      && |r.0.notifications| <= |s.notifications| + 1
      && r.0.notifications[..|s.notifications|] == s.notifications
      && (|r.0.notifications| == |s.notifications| + 1 <==>
            && r.1.Accepted?
            && var a := s.auctions[req.auctionId];
               a.winner.Some? && a.winner.value in s.users && a.winner.value != userId)
      && (|r.0.notifications| == |s.notifications| + 1 ==>
            var a := s.auctions[req.auctionId];
            r.0.notifications[|s.notifications|] ==
              Notification(a.winner.value, req.auctionId, "outbid", "You were outbid on " + a.title + "!"))
  {
  }

  /** A sequence of bid requests, each with the bidder's id and the time it arrives. */
  datatype Arrival = Arrival(userId: Id, req: BidRequest, now: int)

  function Run(s: Store, arrivals: seq<Arrival>): Store
    decreases |arrivals|
  {
    if arrivals == [] then s
    else Run(Step(s, arrivals[0].userId, arrivals[0].req, arrivals[0].now).0, arrivals[1..])
  }

  /** Whatever requests arrive, one at a time, each auction's bid history rises
      strictly and its price and leader are those of its latest bid. */
  lemma {:induction false} RunPreservesValid(s: Store, arrivals: seq<Arrival>)
    requires Valid(s)
    ensures Valid(Run(s, arrivals))
    decreases |arrivals|
  {
    if arrivals != [] {
      StepPreservesValid(s, arrivals[0].userId, arrivals[0].req, arrivals[0].now);
      RunPreservesValid(Step(s, arrivals[0].userId, arrivals[0].req, arrivals[0].now).0, arrivals[1..]);
    }
  }

  /** The closed status is tested before the end time: a closed auction is
      reported as not active whatever the clock says. */
  lemma NotActiveBeforeExpired(s: Store, userId: Id, req: BidRequest, now: int)
    requires req.auctionId != "" && req.amount.Numeric? && req.amount.value != 0
    requires req.auctionId in s.auctions && s.auctions[req.auctionId].status == Closed
    ensures Step(s, userId, req, now).1 == Rejected(NotActive)
  {
  }

  /** The expiry test is strict: every bid after the end time is refused as
      expired, and a bid at exactly the end time passes it. */
  lemma ExpiryBoundary(s: Store, userId: Id, req: BidRequest, now: int)
    requires req.auctionId != "" && req.amount.Numeric? && req.amount.value != 0
    requires req.auctionId in s.auctions && s.auctions[req.auctionId].status == Active
    ensures now > s.auctions[req.auctionId].endTime ==> Step(s, userId, req, now).1 == Rejected(Expired)
    ensures Step(s, userId, req, s.auctions[req.auctionId].endTime).1 != Rejected(Expired)
  {
  }

  /** Every non-zero bid at or below the threshold is refused with a message
      naming the threshold, whether or not the user is known. */
  lemma ThresholdBoundary(s: Store, userId: Id, id: Id, now: int, n: int)
    requires id != "" && id in s.auctions
    requires s.auctions[id].status == Active && now <= s.auctions[id].endTime
    requires n != 0 && n <= Threshold(s.auctions[id])
    ensures Step(s, userId, BidRequest(id, Numeric(n)), now).1 == Rejected(TooLow(Threshold(s.auctions[id])))
  {
  }

  /** One unit above the threshold is accepted from a known user once the
      state checks pass; a threshold of -1 is left out because one unit more
      is 0, which counts as a missing amount. */
  lemma OneAboveThresholdAccepted(s: Store, userId: Id, id: Id, now: int)
    requires id != "" && id in s.auctions && userId in s.users
    requires s.auctions[id].status == Active && now <= s.auctions[id].endTime
    requires Threshold(s.auctions[id]) != -1
    ensures var t := Threshold(s.auctions[id]);
      Step(s, userId, BidRequest(id, Numeric(t + 1)), now).1 == Accepted(Bid(id, s.users[userId].id, s.users[userId].username, t + 1, now), t + 1)
  {
  }

  /** The too-low message carries the threshold, which can be read back from it. */
  lemma TooLowMessageNamesThreshold(t: int)
    ensures var m := ErrorMessage(TooLow(t));
      && |m| > |TooLowPrefix| && m[..|TooLowPrefix|] == TooLowPrefix
      && ParseInt(m[|TooLowPrefix|..]) == t
  {
    var m := ErrorMessage(TooLow(t));
    assert m[|TooLowPrefix|..] == IntToDecimal(t);
    IntToDecimalRoundTrip(t);
  }

  /** Each refusal has its own message: the client can tell them apart by text alone. */
  lemma ErrorMessagesDistinct(e1: BidError, e2: BidError)
    ensures ErrorMessage(e1) == ErrorMessage(e2) ==> e1 == e2
  {
    if e1.TooLow? {
      TooLowMessageNamesThreshold(e1.threshold);
    }
    if e2.TooLow? {
      TooLowMessageNamesThreshold(e2.threshold);
    }
  }

  /** The user lookup is the last check: a request that passes every other
      check but names an unknown user is refused as not found. */
  lemma UserCheckedLast(s: Store, userId: Id, req: BidRequest, now: int)
    requires req.auctionId != "" && req.amount.Numeric? && req.amount.value != 0
    requires req.auctionId in s.auctions && s.auctions[req.auctionId].status == Active
    requires now <= s.auctions[req.auctionId].endTime
    requires req.amount.value > Threshold(s.auctions[req.auctionId])
    requires userId !in s.users
    ensures Step(s, userId, req, now).1 == Rejected(UserNotFound)
    ensures HttpStatus(Step(s, userId, req, now).1.error) == 404
  {
  }

  /** Missing fields are reported before an unparsable amount, and both before any lookup. */
  lemma RequestChecksFirst(s: Store, userId: Id, req: BidRequest, now: int)
    ensures req.auctionId == "" || Falsy(req.amount) ==> Step(s, userId, req, now).1 == Rejected(MissingFields)
    ensures req.auctionId != "" && req.amount.NonNumeric? ==> Step(s, userId, req, now).1 == Rejected(InvalidAmount)
    ensures req.auctionId != "" && req.amount.Numeric? && req.amount.value != 0 && req.auctionId !in s.auctions ==>
      Step(s, userId, req, now).1 == Rejected(AuctionNotFound)
  {
  }

  /** The store of the bid route, updated in place by each request. */
  class Marketplace {
    var auctions: map<Id, Auction>
    var users: map<Id, User>
    var bids: seq<Bid>
    var notifications: seq<Notification>

    function State(): Store
      reads this
    {
      Store(auctions, users, bids, notifications)
    }

    constructor (auctions: map<Id, Auction>, users: map<Id, User>)
      requires Valid(Store(auctions, users, [], []))
      ensures State() == Store(auctions, users, [], []) && Valid(State())
    {
      this.auctions := auctions;
      this.users := users;
      this.bids := [];
      this.notifications := [];
    }

    /** Handles one `POST /bid` from the authenticated user `userId` at time `now`. */
    method PlaceBid(userId: Id, req: BidRequest, now: int) returns (resp: BidResponse)
      modifies this
      ensures (State(), resp) == Step(old(State()), userId, req, now)
      ensures old(Valid(State())) ==> Valid(State())
    {
      ghost var s := State();
      if Valid(s) {
        StepPreservesValid(s, userId, req, now);
      }
      if req.auctionId == "" || Falsy(req.amount) {
        return Rejected(MissingFields);
      }
      if req.amount.NonNumeric? {
        return Rejected(InvalidAmount);
      }
      var amount := req.amount.value;
      if req.auctionId !in auctions {
        return Rejected(AuctionNotFound);
      }
      var auction := auctions[req.auctionId];
      if auction.status != Active {
        return Rejected(NotActive);
      }
      if now > auction.endTime {
        return Rejected(Expired);
      }
      var currentHighest := if auction.currentBid != 0 then auction.currentBid
                            else if auction.startingBid != 0 then auction.startingBid
                            else 0;
      if amount <= currentHighest {
        return Rejected(TooLow(currentHighest));
      }
      if userId !in users {
        return Rejected(UserNotFound);
      }
      var user := users[userId];
      var bid := Bid(req.auctionId, user.id, user.username, amount, now);
      ghost var notice := OutbidNotice(users, auction, user);
      if auction.winner.Some? && auction.winner.value in users {
        var previousWinner := users[auction.winner.value];
        if previousWinner.id != user.id {
          notifications := notifications + [Notification(previousWinner.id, auction.id, "outbid",
                                                          "You were outbid on " + auction.title + "!")];
        }
      }
      assert notifications == s.notifications + NoticeList(notice);
      bids := bids + [bid];
      auction := auction.(currentBid := amount, winner := Some(user.id));
      auctions := auctions[req.auctionId := auction];
      resp := Accepted(bid, auction.currentBid);
    }
  }
}
