/** Raw records of the seven sources, the normalised leads built from them, and
    each source's verdict on one record: which id it is filed under and whether
    the relevance filters let it through. The seen-ledger check itself is
    `Dedup.Scan`; the loops that run it are the `Monitor.Ledger` methods. */
module Sources {
  import opened Text
  import opened Dedup
  import opened LinkIds
  import opened Relevance

  /** A JSON object as returned by NYC Open Data or Reddit, with string values. */
  type Record = map<string, string>

  /** The field `key` of a record, `default` when it is absent. */
  function Get(r: Record, key: string, default: string): string {
    if key in r then r[key] else default
  }

  /** The street address HPD, DOHMH and DOB leads show: number, street, then borough after a comma. */
  function StreetAddress(number: string, street: string, boro: string): string {
    number + " " + street + ", " + boro
  }

  /** Body text and descriptions are cut to this many characters. */
  const SnippetLength: nat := 200

  // ----------------------------------------------------------------- HPD

  datatype HpdLead = HpdLead(
    id: string, address: string, apartment: string, zip: string,
    violationClass: string, description: string, inspectionDate: string, status: string)

  function HpdLeadOf(v: Record): HpdLead {
    HpdLead(
      Get(v, "violationid", ""),
      StreetAddress(Get(v, "housenumber", ""), Get(v, "streetname", ""), Get(v, "boro", "")),
      Get(v, "apartment", "N/A"),
      Get(v, "zip", ""),
      Get(v, "class", ""),
      Get(v, "novdescription", ""),
      Get(v, "inspectiondate", ""),
      Get(v, "currentstatus", ""))
  }

  /** A violation is a candidate exactly when its `violationid` is present and non-empty. */
  function HpdVerdict(v: Record): Verdict<HpdLead> {
    var violationId := Get(v, "violationid", "");
    if violationId != "" then Accept(violationId, HpdLeadOf(v)) else Reject
  }

  // --------------------------------------------------------------- DOHMH

  datatype DohmhLead = DohmhLead(
    id: string, restaurant: string, address: string, zip: string, phone: string,
    violationCode: string, violation: string, inspectionDate: string, grade: string)

  /** The restaurant id and the inspection date joined by an underscore, a missing field read as the empty string. */
  function DohmhId(v: Record): string {
    Get(v, "camis", "") + "_" + Get(v, "inspection_date", "")
  }

  function DohmhLeadOf(v: Record): DohmhLead {
    DohmhLead(
      DohmhId(v),
      Get(v, "dba", "Unknown"),
      StreetAddress(Get(v, "building", ""), Get(v, "street", ""), Get(v, "boro", "")),
      Get(v, "zipcode", ""),
      Get(v, "phone", "N/A"),
      Get(v, "violation_code", ""),
      Get(v, "violation_description", ""),
      Get(v, "inspection_date", ""),
      Get(v, "grade", "N/A"))
  }

  /** Every DOHMH row is a candidate: the composed id is never tested for emptiness. */
  function DohmhVerdict(v: Record): Verdict<DohmhLead> {
    Accept(DohmhId(v), DohmhLeadOf(v))
  }

  /** For restaurant ids without an underscore (CAMIS numbers), the composed id
      determines both the restaurant and the inspection date. */
  lemma DohmhIdInjective(camis1: string, date1: string, camis2: string, date2: string)
    requires '_' !in camis1 && '_' !in camis2
    requires camis1 + "_" + date1 == camis2 + "_" + date2
    ensures camis1 == camis2 && date1 == date2
  {
    var s := camis1 + "_" + date1;
    // the first underscore of `s` sits right after either restaurant id
    assert s[|camis1|] == '_' && forall i :: 0 <= i < |camis1| ==> s[i] == camis1[i] != '_';
    assert s[|camis2|] == '_' && forall i :: 0 <= i < |camis2| ==> s[i] == camis2[i] != '_';
    assert camis1 == s[..|camis1|] == camis2;
    assert date1 == s[|camis1| + 1..] == date2;
  }

  //----------------------------------------------------------------- 311

  datatype ComplaintLead = ComplaintLead(
    id: string, complaintType: string, descriptor: string, address: string,
    zip: string, createdDate: string, status: string, agency: string)

  /** What the 311 address means: the non-empty values of `incident_address`
      and `borough`, joined by ", ", or a placeholder when neither is present. */
  function ComplaintAddress(c: Record): string {
    var street := Get(c, "incident_address", "");
    var borough := Get(c, "borough", "");
    if street != "" && borough != "" then street + ", " + borough
    else if street != "" then street
    else if borough != "" then borough
    else "Address not provided"
  }

  /** The address as the monitor builds it, by appending to `address_parts`
      and joining. */
  method BuildComplaintAddress(c: Record) returns (address: string)
    ensures address == ComplaintAddress(c)
  {
    var addressParts: seq<string> := [];
    if Get(c, "incident_address", "") != "" {
      addressParts := addressParts + [Get(c, "incident_address", "")];
    }
    if Get(c, "borough", "") != "" {
      addressParts := addressParts + [Get(c, "borough", "")];
    }
    address := if addressParts != [] then Join(addressParts, ", ") else "Address not provided";
    assert |addressParts| == 2 ==> Join(addressParts, ", ") == addressParts[0] + ", " + Join(addressParts[1..], ", ");
  }

  function ComplaintLeadOf(c: Record): ComplaintLead {
    ComplaintLead(
      Get(c, "unique_key", ""),
      Get(c, "complaint_type", "Unknown"),
      Get(c, "descriptor", ""),
      ComplaintAddress(c),
      Get(c, "incident_zip", "N/A"),
      Get(c, "created_date", ""),
      Get(c, "status", "Unknown"),
      Get(c, "agency", "N/A"))
  }

  /** A complaint is a candidate exactly when its `unique_key` is present and non-empty. */
  function ComplaintVerdict(c: Record): Verdict<ComplaintLead> {
    var uniqueKey := Get(c, "unique_key", "");
    if uniqueKey != "" then Accept(uniqueKey, ComplaintLeadOf(c)) else Reject
  }

  // ----------------------------------------------------------------- DOB

  datatype DobLead = DobLead(
    id: string, number: string, address: string, zip: string,
    violationType: string, category: string, issueDate: string, disposition: string)

  function DobLeadOf(v: Record): DobLead {
    DobLead(
      Get(v, "isn_dob_bis_extract", ""),
      Get(v, "number", "N/A"),
      StreetAddress(Get(v, "house_number", ""), Get(v, "street", ""), Get(v, "boro", "")),
      Get(v, "zip", "N/A"),
      Get(v, "violation_type", "Unknown"),
      Get(v, "violation_category", "N/A"),
      Get(v, "issue_date", ""),
      Get(v, "disposition_comments", "Pending"))
  }

  /** A DOB violation is a candidate exactly when `isn_dob_bis_extract` is present and non-empty. */
  function DobVerdict(v: Record): Verdict<DobLead> {
    var isn := Get(v, "isn_dob_bis_extract", "");
    if isn != "" then Accept(isn, DobLeadOf(v)) else Reject
  }

  // ---------------------------------------------------------- partitions

  /** The items of one partition (subreddit, feed, account), each tagged with its partition's name. */
  function Tag<T>(name: string, items: seq<T>): (tagged: seq<(string, T)>)
    ensures |tagged| == |items|
    ensures forall i :: 0 <= i < |items| ==> tagged[i] == (name, items[i])
  {
    seq(|items|, i requires 0 <= i < |items| => (name, items[i]))
  }

  /** All items of all partitions in the order the monitor visits them; a
      partition whose fetch failed (`None`) contributes nothing. */
  function Flatten<T>(names: seq<string>, pages: seq<Option<seq<T>>>): seq<(string, T)>
    requires |names| == |pages|
    decreases |pages|
  {
    if pages == [] then []
    else
      var n := |pages| - 1;
      Flatten(names[..n], pages[..n]) + (if pages[n].Some? then Tag(names[n], pages[n].value) else [])
  }

  // -------------------------------------------------------------- Reddit

  /** The subreddits polled, in order. */
  const Subreddits: seq<string> := [
    "AskNYC", "nyc", "Brooklyn", "Queens", "Bronx",
    "Bedbugs", "Landlord",
    "Bushwick", "williamsburg", "Ridgewood", "FortGreene", "ParkSlope",
    "BayRidge", "greenpoint", "BedStuy", "crownheights",
    "astoria", "flushing", "corona", "woodside", "JacksonHeights",
    "ForestHills", "Sunnyside", "LIC", "Elmhurst",
    "StuyTown", "upperwestside", "harlem", "EastVillage",
    "nassaucounty", "longisland", "Hempstead", "longbeach", "Freeport",
    "ValleyStream", "Levittown", "Massapequa", "Hicksville", "Plainview",
    "Syosset", "GardenCity", "rockvillecentre", "Oceanside"
  ]

  datatype RedditLead = RedditLead(id: string, subreddit: string, title: string, text: string, url: string)

  function RedditLeadOf(subreddit: string, post: Record): RedditLead {
    RedditLead(
      Get(post, "id", ""),
      subreddit,
      Get(post, "title", ""),
      Truncate(Get(post, "selftext", ""), SnippetLength),
      "https://reddit.com" + Get(post, "permalink", ""))
  }

  /** A post (tagged with its subreddit) is a candidate when it mentions a pest
      keyword, has a non-empty id, and either comes from an NYC subreddit or
      mentions NYC. */
  function RedditVerdict(entry: (string, Record)): Verdict<RedditLead> {
    var subreddit := entry.0;
    var post := entry.1;
    var text := RelevanceText(Get(post, "title", ""), Get(post, "selftext", ""));
    var postId := Get(post, "id", "");
    if MentionsKeyword(text) && postId != "" && (IsNycSubreddit(subreddit) || MentionsNyc(text))
    then Accept(postId, RedditLeadOf(subreddit, post))
    else Reject
  }

  // ------------------------------------------------------------------ RSS

  /** A child element of an RSS item as ElementTree sees it: absent, present
      with no text, or present with text. */
  datatype Element = Missing | NoText | HasText(text: string)

  datatype RssItem = RssItem(title: Element, link: Element, description: Element, pubDate: Element)

  /** The text of an element, empty when it is absent or has no text. */
  function TextOf(e: Element): string {
    if e.HasText? then e.text else ""
  }

  /** The posting date a lead shows: "Unknown" when the element is absent, `None` (Python's None) when it has no text. */
  function Posted(e: Element): Option<string> {
    match e
    case Missing => Some("Unknown")
    case NoText => None
    case HasText(t) => Some(t)
  }

  // ------------------------------------------------------------- Craigslist

  /** The Craigslist RSS searches polled, in order. */
  const CraigslistFeeds: seq<string> := [
    "https://newyork.craigslist.org/search/bks?format=rss&query=pest+exterminator+mice+rats+roaches",
    "https://newyork.craigslist.org/search/que?format=rss&query=pest+exterminator+mice+rats+roaches",
    "https://newyork.craigslist.org/search/brx?format=rss&query=pest+exterminator+mice+rats+roaches",
    "https://newyork.craigslist.org/search/apa?format=rss&query=mice+rats+roaches+bedbugs"
  ]

  datatype CraigslistLead = CraigslistLead(
    id: string, title: string, description: string, link: string, posted: Option<string>)

  /** An item (tagged with its feed) is a candidate when it has a title and a
      link, its link holds a post id, and its title and description mention a
      pest keyword. A description element without text counts as empty. */
  function CraigslistVerdict(entry: (string, RssItem)): Verdict<CraigslistLead> {
    var item := entry.1;
    if item.title.Missing? || item.link.Missing? then Reject
    else
      var title := TextOf(item.title);
      var link := TextOf(item.link);
      var description := TextOf(item.description);
      match HtmlPostId(link)
      case None => Reject
      case Some(postId) =>
        if MentionsKeyword(RelevanceText(title, description))
        then Accept(postId, CraigslistLead(postId, title, Truncate(description, SnippetLength), link, Posted(item.pubDate)))
        else Reject
  }

  // ---------------------------------------------------------------- Twitter

  /** The accounts polled through Nitter, in order. */
  const TwitterAccounts: seq<string> := ["NYCHousing", "NYCHA", "NYCHealthy", "nycgov"]

  datatype TweetLead = TweetLead(id: string, account: string, tweet: string, link: string, posted: Option<string>)

  /** An item (tagged with its account) is a candidate when it has a title and a
      link, its link holds a status id, and its text mentions both a pest keyword
      and NYC. A description element without text counts as empty. */
  function TweetVerdict(entry: (string, RssItem)): Verdict<TweetLead> {
    var account := entry.0;
    var item := entry.1;
    if item.title.Missing? || item.link.Missing? then Reject
    else
      var title := TextOf(item.title);
      var link := TextOf(item.link);
      var description := TextOf(item.description);
      match TweetId(link)
      case None => Reject
      case Some(tweetId) =>
        var text := RelevanceText(title, description);
        if MentionsKeyword(text) && MentionsNyc(text)
        then Accept(tweetId, TweetLead(tweetId, account, title, link, Posted(item.pubDate)))
        else Reject
  }

  // ------------------------------------------------ what each source reports

  /** HPD reports a violation id exactly when some fetched violation carries it
      as a non-empty `violationid` and the ledger does not hold it yet; each
      lead is filed under its own id. */
  lemma HpdReportsExactly(seen: seq<string>, batch: seq<Record>)
    ensures forall x :: x in Ids(Scan(HpdVerdict, seen, batch)) <==>
      x != "" && x !in seen && exists j :: 0 <= j < |batch| && Get(batch[j], "violationid", "") == x
    ensures forall p :: p in Scan(HpdVerdict, seen, batch) ==> p.1.id == p.0
  {
    ScanIdsExactly(HpdVerdict, seen, batch);
    ScanSound(HpdVerdict, seen, batch);
  }

  /** DOHMH reports a composed id exactly when some fetched row composes it and
      the ledger does not hold it yet; rows without `camis` or date are not
      excluded, so even "_" is reported once. */
  lemma DohmhReportsExactly(seen: seq<string>, batch: seq<Record>)
    ensures forall x :: x in Ids(Scan(DohmhVerdict, seen, batch)) <==>
      x !in seen && exists j :: 0 <= j < |batch| && DohmhId(batch[j]) == x
    ensures forall p :: p in Scan(DohmhVerdict, seen, batch) ==> p.1.id == p.0
  {
    ScanIdsExactly(DohmhVerdict, seen, batch);
    ScanSound(DohmhVerdict, seen, batch);
  }

  /** 311 reports a complaint key exactly when some fetched complaint carries it
      as a non-empty `unique_key` and the ledger does not hold it yet. */
  lemma ComplaintReportsExactly(seen: seq<string>, batch: seq<Record>)
    ensures forall x :: x in Ids(Scan(ComplaintVerdict, seen, batch)) <==>
      x != "" && x !in seen && exists j :: 0 <= j < |batch| && Get(batch[j], "unique_key", "") == x
    ensures forall p :: p in Scan(ComplaintVerdict, seen, batch) ==> p.1.id == p.0
  {
    ScanIdsExactly(ComplaintVerdict, seen, batch);
    ScanSound(ComplaintVerdict, seen, batch);
  }

  /** DOB reports an id exactly when some fetched violation carries it as a
      non-empty `isn_dob_bis_extract` and the ledger does not hold it yet. */
  lemma DobReportsExactly(seen: seq<string>, batch: seq<Record>)
    ensures forall x :: x in Ids(Scan(DobVerdict, seen, batch)) <==>
      x != "" && x !in seen && exists j :: 0 <= j < |batch| && Get(batch[j], "isn_dob_bis_extract", "") == x
    ensures forall p :: p in Scan(DobVerdict, seen, batch) ==> p.1.id == p.0
  {
    ScanIdsExactly(DobVerdict, seen, batch);
    ScanSound(DobVerdict, seen, batch);
  }

  /** The post, fetched from `entry.0`, has the non-empty id `x`, mentions a
      pest keyword, and is from an NYC subreddit or mentions NYC. */
  ghost predicate RedditPostQualifies(entry: (string, Record), x: string) {
    var text := RelevanceText(Get(entry.1, "title", ""), Get(entry.1, "selftext", ""));
    && x != ""
    && Get(entry.1, "id", "") == x
    && MentionsKeyword(text)
    && (IsNycSubreddit(entry.0) || MentionsNyc(text))
  }

  /** The item has a title and a link, the leftmost `/(digits).html` of its
      link is `x`, and its title and description mention a pest keyword. */
  ghost predicate CraigslistItemQualifies(item: RssItem, x: string) {
    && !item.title.Missing? && !item.link.Missing?
    && HtmlPostId(TextOf(item.link)) == Some(x)
    && MentionsKeyword(RelevanceText(TextOf(item.title), TextOf(item.description)))
  }

  /** The item has a title and a link, the leftmost `/status/(digits)` of its
      link is `x`, and its text mentions a pest keyword and NYC. */
  ghost predicate TweetItemQualifies(item: RssItem, x: string) {
    var text := RelevanceText(TextOf(item.title), TextOf(item.description));
    && !item.title.Missing? && !item.link.Missing?
    && TweetId(TextOf(item.link)) == Some(x)
    && MentionsKeyword(text) && MentionsNyc(text)
  }

  /** Reddit reports a post id exactly when some fetched post has it as a
      non-empty id, mentions a pest keyword, and is NYC-related (an NYC
      subreddit or an NYC keyword), and the ledger does not hold it yet. Each
      reported lead is built from a qualifying post with that id, its body
      cut to its first 200 characters. */
  lemma RedditReportsExactly(seen: seq<string>, batch: seq<(string, Record)>)
    ensures forall x :: x in Ids(Scan(RedditVerdict, seen, batch)) <==>
      x !in seen && exists j :: 0 <= j < |batch| && RedditPostQualifies(batch[j], x)
    ensures forall p :: p in Scan(RedditVerdict, seen, batch) ==> p.1.id == p.0 && |p.1.text| <= SnippetLength
    ensures forall p :: p in Scan(RedditVerdict, seen, batch) ==>
      exists j :: 0 <= j < |batch| && RedditPostQualifies(batch[j], p.0) && p.1 == RedditLeadOf(batch[j].0, batch[j].1)
  {
    ScanIdsExactly(RedditVerdict, seen, batch);
    ScanSound(RedditVerdict, seen, batch);
  }

  /** Craigslist reports a post id exactly when some fetched item has a title
      and a link, the leftmost `/(digits).html` of its link gives that id, its
      title and description mention a pest keyword, and the ledger does not
      hold the id yet. Each reported lead carries the title and link of a
      qualifying item with that id and the first 200 characters of its
      description. */
  lemma CraigslistReportsExactly(seen: seq<string>, batch: seq<(string, RssItem)>)
    ensures forall x :: x in Ids(Scan(CraigslistVerdict, seen, batch)) <==>
      x !in seen && exists j :: 0 <= j < |batch| && CraigslistItemQualifies(batch[j].1, x)
    ensures forall p :: p in Scan(CraigslistVerdict, seen, batch) ==> p.1.id == p.0 && |p.1.description| <= SnippetLength
    ensures forall p :: p in Scan(CraigslistVerdict, seen, batch) ==>
      exists j :: 0 <= j < |batch| && CraigslistItemQualifies(batch[j].1, p.0)
        && p.1.title == TextOf(batch[j].1.title) && p.1.link == TextOf(batch[j].1.link)
        && p.1.description == Truncate(TextOf(batch[j].1.description), SnippetLength)
  {
    ScanIdsExactly(CraigslistVerdict, seen, batch);
    ScanSound(CraigslistVerdict, seen, batch);
  }

  /** Twitter reports a status id exactly when some fetched item has a title
      and a link, the leftmost `/status/(digits)` of its link gives that id, its
      text mentions both a pest keyword and NYC, and the ledger does not hold
      the id yet. */
  lemma TweetReportsExactly(seen: seq<string>, batch: seq<(string, RssItem)>)
    ensures forall x :: x in Ids(Scan(TweetVerdict, seen, batch)) <==>
      x !in seen && exists j :: 0 <= j < |batch| && TweetItemQualifies(batch[j].1, x)
    ensures forall p :: p in Scan(TweetVerdict, seen, batch) ==> p.1.id == p.0
  {
    ScanIdsExactly(TweetVerdict, seen, batch);
    ScanSound(TweetVerdict, seen, batch);
  }
}
