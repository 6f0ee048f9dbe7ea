/**
 * The auction record as the Mongoose schema declares it: required and
 * optional paths, the status and category enumerations with their defaults,
 * and the `bids` virtual that joins Bid records back to their auction.
 */
module Schema {
  import opened Wrappers

  /** Opaque document identifiers (ObjectIds) compared as strings. */
  type Id = string

  datatype Status = Active | Closed

  datatype Category = Electronics | Fashion | Home | Art | Vehicles | Collectibles | Other

  function StatusName(s: Status): string {
    match s
    case Active => "active"
    case Closed => "closed"
  }

  function ParseStatus(s: string): Option<Status> {
    if s == "active" then Some(Active)
    else if s == "closed" then Some(Closed)
    else None
  }

  function CategoryName(c: Category): string {
    match c
    case Electronics => "Electronics"
    case Fashion => "Fashion"
    case Home => "Home"
    case Art => "Art"
    case Vehicles => "Vehicles"
    case Collectibles => "Collectibles"
    case Other => "Other"
  }

  function ParseCategory(s: string): Option<Category> {
    if s == "Electronics" then Some(Electronics)
    else if s == "Fashion" then Some(Fashion)
    else if s == "Home" then Some(Home)
    else if s == "Art" then Some(Art)
    else if s == "Vehicles" then Some(Vehicles)
    else if s == "Collectibles" then Some(Collectibles)
    else if s == "Other" then Some(Other)
    else None
  }

  /** The category enumeration in declaration order. */
  const AllCategories: seq<Category> :=
    [Electronics, Fashion, Home, Art, Vehicles, Collectibles, Other]

  const DefaultCategory: Category := Other
  const DefaultStatus: Status := Active

  /** A stored auction. `createdAt` is absent for every document the schema
      creates: the schema declares no such path and no timestamps option. */
  datatype Auction = Auction(
    id: Id,
    title: string,
    description: string,
    imageUrl: string,
    images: seq<string>,
    category: Category,
    startingBid: int,
    currentBid: int,
    endTime: int,
    createdBy: Option<Id>,
    seller: Option<Id>,
    winner: Option<Id>,
    status: Status,
    createdAt: Option<int>)

  /** A stored bid, with the fields the bid route writes. */
  datatype Bid = Bid(auctionId: Id, userId: Id, username: string, amount: int, timestamp: int)

  /** The values offered to the model before validation; `None` is a path left unset. */
  datatype AuctionDraft = AuctionDraft(
    title: Option<string>,
    description: Option<string>,
    imageUrl: Option<string>,
    images: Option<seq<string>>,
    category: Option<string>,
    startingBid: Option<int>,
    currentBid: Option<int>,
    endTime: Option<int>,
    createdBy: Option<Id>,
    seller: Option<Id>,
    winner: Option<Id>,
    status: Option<string>)

  /** The schema paths that can fail validation. */
  datatype Path = TitlePath | DescriptionPath | ImageUrlPath | CategoryPath
                | StartingBidPath | CurrentBidPath | EndTimePath | StatusPath

  /** A required string path fails on an unset value and on the empty string. */
  predicate MissingText(v: Option<string>) {
    v.None? || v.value == ""
  }

  function Violations(d: AuctionDraft): seq<Path> {
    (if MissingText(d.title) then [TitlePath] else [])
    + (if MissingText(d.description) then [DescriptionPath] else [])
    + (if MissingText(d.imageUrl) then [ImageUrlPath] else [])
    + (if d.category.Some? && ParseCategory(d.category.value).None? then [CategoryPath] else [])
    + (if d.startingBid.None? then [StartingBidPath] else [])
    + (if d.currentBid.None? then [CurrentBidPath] else [])
    + (if d.endTime.None? then [EndTimePath] else [])
    + (if d.status.Some? && ParseStatus(d.status.value).None? then [StatusPath] else [])
  }

  /** Validates a draft and builds the document, applying the defaults. */
  function Create(id: Id, d: AuctionDraft): (r: Result<Auction, seq<Path>>)
    ensures r.Failure? ==> r.error != [] && |r.error| <= 8
    ensures r.Success? ==> r.value.id == id && r.value.createdAt.None?
    ensures r.Success? ==> r.value.title != "" && r.value.description != "" && r.value.imageUrl != ""
  {
    if Violations(d) != [] then Failure(Violations(d))
    else
      Success(Auction(
        id, d.title.value, d.description.value, d.imageUrl.value,
        if d.images.Some? then d.images.value else [],
        if d.category.Some? then ParseCategory(d.category.value).value else DefaultCategory,
        d.startingBid.value, d.currentBid.value, d.endTime.value,
        d.createdBy, d.seller, d.winner,
        if d.status.Some? then ParseStatus(d.status.value).value else DefaultStatus,
        None))
  }

  /** The status path accepts exactly the two names of the enumeration. */
  lemma StatusNamesRoundTrip(s: Status, name: string)
    ensures ParseStatus(StatusName(s)) == Some(s)
    ensures ParseStatus(name).Some? ==> StatusName(ParseStatus(name).value) == name
    ensures ParseStatus(name).Some? <==> name == "active" || name == "closed"
  {
  }

  /** The category path accepts exactly the seven names of the enumeration. */
  lemma CategoryNamesRoundTrip(c: Category, name: string)
    ensures ParseCategory(CategoryName(c)) == Some(c)
    ensures ParseCategory(name).Some? ==> CategoryName(ParseCategory(name).value) == name
    ensures ParseCategory(name).Some? <==> exists k :: 0 <= k < |AllCategories| && CategoryName(AllCategories[k]) == name
  {
    if ParseCategory(name).Some? {
      var c := ParseCategory(name).value;
      var k := match c
        case Electronics => 0 case Fashion => 1 case Home => 2 case Art => 3
        case Vehicles => 4 case Collectibles => 5 case Other => 6;
      assert CategoryName(AllCategories[k]) == name;
    }
  }

  /** Every category appears in the enumeration exactly once. */
  lemma AllCategoriesComplete(c: Category)
    ensures c in AllCategories
    ensures forall i, j :: 0 <= i < j < |AllCategories| ==> AllCategories[i] != AllCategories[j]
  {
  }

  /** Creation succeeds exactly when every required path is set (strings non-empty)
      and every enumerated path that is set holds a member of its enumeration. */
  lemma CreateSucceedsIff(id: Id, d: AuctionDraft)
    ensures Create(id, d).Success? <==>
      && !MissingText(d.title) && !MissingText(d.description) && !MissingText(d.imageUrl)
      && d.startingBid.Some? && d.currentBid.Some? && d.endTime.Some?
      && (d.category.Some? ==> ParseCategory(d.category.value).Some?)
      && (d.status.Some? ==> ParseStatus(d.status.value).Some?)
  {
  }

  /** Whether the draft breaks the rule of path `p`: a required path unset (or
      an empty string), or an enumerated path holding a value outside its enumeration. */
  predicate Offends(d: AuctionDraft, p: Path) {
    match p
    case TitlePath => MissingText(d.title)
    case DescriptionPath => MissingText(d.description)
    case ImageUrlPath => MissingText(d.imageUrl)
    case CategoryPath => d.category.Some? && ParseCategory(d.category.value).None?
    case StartingBidPath => d.startingBid.None?
    case CurrentBidPath => d.currentBid.None?
    case EndTimePath => d.endTime.None?
    case StatusPath => d.status.Some? && ParseStatus(d.status.value).None?
  }

  /** A failed creation names every offending path, and only those; creation
      fails exactly when some path offends. */
  lemma CreateReportsViolations(id: Id, d: AuctionDraft)
    ensures Create(id, d).Failure? <==> exists p :: Offends(d, p)
    ensures Create(id, d).Failure? ==> forall p :: p in Create(id, d).error <==> Offends(d, p)
  {
    if Create(id, d).Failure? {
      assert Offends(d, Violations(d)[0]);
    }
  }

  /** A created auction keeps the offered values, takes the defaults for unset
      category, status and images, and has no creation time. */
  lemma CreateDefaults(id: Id, d: AuctionDraft)
    requires Create(id, d).Success?
    ensures var a := Create(id, d).value;
      && a.id == id && Some(a.title) == d.title && Some(a.startingBid) == d.startingBid
      && Some(a.description) == d.description && Some(a.imageUrl) == d.imageUrl
      && (d.images.Some? ==> a.images == d.images.value)
      && Some(a.currentBid) == d.currentBid && Some(a.endTime) == d.endTime
      && a.winner == d.winner && a.seller == d.seller && a.createdBy == d.createdBy
      && (d.category.None? ==> a.category == Other)
      && (d.category.Some? ==> CategoryName(a.category) == d.category.value)
      && (d.status.None? ==> a.status == Active)
      && (d.status.Some? ==> StatusName(a.status) == d.status.value)
      && (d.images.None? ==> a.images == [])
      && a.createdAt.None?
  {
    CategoryNamesRoundTrip(Other, if d.category.Some? then d.category.value else "");
    StatusNamesRoundTrip(Active, if d.status.Some? then d.status.value else "");
  }

  /** The `bids` virtual: the Bid records whose auctionId is the auction's id, in stored order. */
  function BidsOf(id: Id, bids: seq<Bid>): (r: seq<Bid>)
    ensures |r| <= |bids|
    ensures forall b :: b in r <==> b in bids && b.auctionId == id
    decreases |bids|
  {
    if bids == [] then []
    else
      var last := bids[|bids| - 1];
      BidsOf(id, bids[..|bids| - 1]) + (if last.auctionId == id then [last] else [])
  }

  /** Storing one more bid extends the virtual of its own auction and no other. */
  lemma BidsOfAppend(id: Id, bids: seq<Bid>, b: Bid)
    ensures BidsOf(id, bids + [b]) == BidsOf(id, bids) + (if b.auctionId == id then [b] else [])
  {
    assert (bids + [b])[..|bids + [b]| - 1] == bids;
  }
}
