/** The RSS item loops as they are written. An item's description is read
    without the empty-string fallback its title and link get, so a description
    element with no text yields Python's None, and joining it to the title
    for the relevance test raises a `TypeError`. The feed's exception handler
    then abandons the rest of that feed. The checks in `Monitor` use the
    intended reading, in which such a description is empty. */
module RssAsWritten {
  import opened Text
  import opened Dedup
  import opened Sources
  import opened LinkIds
  import opened Relevance

  /** What the loop body does with one item: skip it, report it, or raise. */
  datatype ItemOutcome<L> = Skip | Report(id: string, lead: L) | Raise

  /** The loop body as the corrected model runs it: report an accepted item
      whose id the ledger does not hold. */
  function Decide<L>(v: Verdict<L>, ledger: seq<string>): ItemOutcome<L> {
    if v.Accept? && v.id !in ledger then Report(v.id, v.lead) else Skip
  }

  /** One feed's items as written: items are taken in order, each reported id
      goes to the ledger at once, and an exception ends the feed, keeping what
      was reported before it. */
  function FeedAsWritten<R, L>(step: (R, seq<string>) -> ItemOutcome<L>, ledger: seq<string>, items: seq<R>)
    : seq<(string, L)>
    decreases |items|
  {
    if items == [] then []
    else
      match step(items[0], ledger)
      case Raise => []
      case Skip => FeedAsWritten(step, ledger, items[1..])
      case Report(id, lead) => [(id, lead)] + FeedAsWritten(step, ledger + [id], items[1..])
  }

  /** The Craigslist item body as written: the title and link checks, the post
      id, the ledger test, then the relevance text, which raises when the
      description element has no text. */
  function CraigslistStepAsWritten(entry: (string, RssItem), ledger: seq<string>): ItemOutcome<CraigslistLead> {
    var item := entry.1;
    if item.title.Missing? || item.link.Missing? then Skip
    else
      var title := TextOf(item.title);
      var link := TextOf(item.link);
      match HtmlPostId(link)
      case None => Skip
      case Some(postId) =>
        if postId in ledger then Skip
        else if item.description.NoText? then Raise
        else
          var description := TextOf(item.description);
          if MentionsKeyword(RelevanceText(title, description))
          then Report(postId, CraigslistLead(postId, title, Truncate(description, SnippetLength), link, Posted(item.pubDate)))
          else Skip
  }

  /** The Twitter item body as written, with the same missing fallback. */
  function TweetStepAsWritten(entry: (string, RssItem), ledger: seq<string>): ItemOutcome<TweetLead> {
    var item := entry.1;
    if item.title.Missing? || item.link.Missing? then Skip
    else
      var title := TextOf(item.title);
      var link := TextOf(item.link);
      match TweetId(link)
      case None => Skip
      case Some(tweetId) =>
        if tweetId in ledger then Skip
        else if item.description.NoText? then Raise
        else
          var text := RelevanceText(title, TextOf(item.description));
          if MentionsKeyword(text) && MentionsNyc(text)
          then Report(tweetId, TweetLead(tweetId, entry.0, title, link, Posted(item.pubDate)))
          else Skip
  }

  /** Where the written body never raises, it makes the corrected decision. */
  lemma CraigslistStepAgrees(entry: (string, RssItem), ledger: seq<string>)
    requires !entry.1.description.NoText?
    ensures CraigslistStepAsWritten(entry, ledger) == Decide(CraigslistVerdict(entry), ledger)
  {
  }

  lemma TweetStepAgrees(entry: (string, RssItem), ledger: seq<string>)
    requires !entry.1.description.NoText?
    ensures TweetStepAsWritten(entry, ledger) == Decide(TweetVerdict(entry), ledger)
  {
  }

  /** On every item of `items`, whatever the ledger, the written body makes
      the corrected decision. */
  ghost predicate StepsAgree<R, L>(step: (R, seq<string>) -> ItemOutcome<L>, classify: R -> Verdict<L>, items: seq<R>) {
    forall i, l :: 0 <= i < |items| ==> step(items[i], l) == Decide(classify(items[i]), l)
  }

  /** A feed walked as written agrees with the ledger scan when the written
      body makes the corrected decision on every item. */
  lemma {:induction false} FeedAsWrittenIsScan<R, L>(step: (R, seq<string>) -> ItemOutcome<L>, classify: R -> Verdict<L>,
                                                    ledger: seq<string>, items: seq<R>)
    requires StepsAgree(step, classify, items)
    ensures FeedAsWritten(step, ledger, items) == Scan(classify, ledger, items)
    decreases |items|
  {
    if items != [] {
      var r := items[0];
      var rest := items[1..];
      assert StepsAgree(step, classify, rest) by {
        forall i, l | 0 <= i < |rest| ensures step(rest[i], l) == Decide(classify(rest[i]), l) {
          assert rest[i] == items[i + 1];
        }
      }
      assert step(r, ledger) == Decide(classify(r), ledger);
      assert items == [r] + rest;
      ScanCons(classify, ledger, r, rest);
      match step(r, ledger)
      case Skip =>
        assert Step(classify, ledger, [], r) == [];
        assert ledger + Ids<L>([]) == ledger;
        FeedAsWrittenIsScan(step, classify, ledger, rest);
      case Report(id, lead) =>
        assert Step(classify, ledger, [], r) == [(id, lead)];
        assert Ids([(id, lead)]) == [id];
        FeedAsWrittenIsScan(step, classify, ledger + [id], rest);
    }
  }

  /** A Craigslist feed none of whose items has an empty description element
      is handled as the corrected model handles it. */
  lemma CraigslistFeedAsWrittenIsScan(feed: string, items: seq<RssItem>, ledger: seq<string>)
    requires forall i :: 0 <= i < |items| ==> !items[i].description.NoText?
    ensures FeedAsWritten(CraigslistStepAsWritten, ledger, Tag(feed, items)) ==
      Scan(CraigslistVerdict, ledger, Tag(feed, items))
  {
    var tagged := Tag(feed, items);
    assert StepsAgree(CraigslistStepAsWritten, CraigslistVerdict, tagged) by {
      forall i, l | 0 <= i < |tagged|
        ensures CraigslistStepAsWritten(tagged[i], l) == Decide(CraigslistVerdict(tagged[i]), l)
      {
        CraigslistStepAgrees(tagged[i], l);
      }
    }
    FeedAsWrittenIsScan(CraigslistStepAsWritten, CraigslistVerdict, ledger, tagged);
  }

  lemma TweetFeedAsWrittenIsScan(account: string, items: seq<RssItem>, ledger: seq<string>)
    requires forall i :: 0 <= i < |items| ==> !items[i].description.NoText?
    ensures FeedAsWritten(TweetStepAsWritten, ledger, Tag(account, items)) ==
      Scan(TweetVerdict, ledger, Tag(account, items))
  {
    var tagged := Tag(account, items);
    assert StepsAgree(TweetStepAsWritten, TweetVerdict, tagged) by {
      forall i, l | 0 <= i < |tagged|
        ensures TweetStepAsWritten(tagged[i], l) == Decide(TweetVerdict(tagged[i]), l)
      {
        TweetStepAgrees(tagged[i], l);
      }
    }
    FeedAsWrittenIsScan(TweetStepAsWritten, TweetVerdict, ledger, tagged);
  }

  /** A feed whose first `n` items the written body skips and whose next
      item raises yields nothing. */
  lemma {:induction false} SkipsThenRaise<R, L>(step: (R, seq<string>) -> ItemOutcome<L>, ledger: seq<string>,
                                               items: seq<R>, n: nat)
    requires n < |items|
    requires forall i :: 0 <= i < n ==> step(items[i], ledger).Skip?
    requires step(items[n], ledger).Raise?
    ensures FeedAsWritten(step, ledger, items) == []
    decreases n
  {
    if n > 0 {
      assert step(items[0], ledger).Skip?;
      var rest := items[1..];
      forall i | 0 <= i < n - 1 ensures step(rest[i], ledger).Skip? {
        assert rest[i] == items[i + 1];
      }
      assert rest[n - 1] == items[n];
      SkipsThenRaise(step, ledger, rest, n - 1);
    }
  }

  /** As written, a new post whose description element has no text ends its
      feed: when every item before it is skipped, nothing of the feed is
      reported, the post itself included. */
  lemma CraigslistNoTextEndsFeed(feed: string, items: seq<RssItem>, ledger: seq<string>, n: nat)
    requires n < |items|
    requires forall i :: 0 <= i < n ==> CraigslistStepAsWritten((feed, items[i]), ledger).Skip?
    requires !items[n].title.Missing? && !items[n].link.Missing? && items[n].description.NoText?
    requires var id := HtmlPostId(TextOf(items[n].link)); id.Some? && id.value !in ledger
    ensures FeedAsWritten(CraigslistStepAsWritten, ledger, Tag(feed, items)) == []
  {
    var tagged := Tag(feed, items);
    forall i | 0 <= i < n ensures CraigslistStepAsWritten(tagged[i], ledger).Skip? {
      assert tagged[i] == (feed, items[i]);
    }
    assert tagged[n] == (feed, items[n]);
    SkipsThenRaise(CraigslistStepAsWritten, ledger, tagged, n);
  }

  /** Two accepted records with different ids are both reported, in order. */
  lemma ScanTwoAccepted<R, L>(classify: R -> Verdict<L>, a: R, b: R)
    requires classify(a).Accept? && classify(b).Accept? && classify(a).id != classify(b).id
    ensures Ids(Scan(classify, [], [a, b])) == [classify(a).id, classify(b).id]
  {
    assert [a] == [] + [a];
    assert [a, b] == [a] + [b];
    ScanSnoc(classify, [], [], a);
    ScanSnoc(classify, [], [a], b);
  }

  /** A Craigslist feed whose first item is a new post whose description
      element has no text, followed by a second new post about mice that has
      no description element; the feed it came from does not matter. */
  const SampleFeed: seq<RssItem> := [
    RssItem(HasText("mice"), HasText("/1.html"), NoText, Missing),
    RssItem(HasText("mice"), HasText("/2.html"), Missing, Missing)]

  /** As written, the sample feed yields nothing. */
  lemma CraigslistSampleAsWritten(feed: string)
    ensures FeedAsWritten(CraigslistStepAsWritten, [], Tag(feed, SampleFeed)) == []
  {
    assert HtmlPostId("/1.html") == Some("1") by { ShortPostLink("/1.html"); }
    CraigslistNoTextEndsFeed(feed, SampleFeed, [], 0);
  }

  /** Read as intended, the sample feed reports both posts. */
  lemma CraigslistSampleIntended(feed: string)
    ensures Ids(Scan(CraigslistVerdict, [], Tag(feed, SampleFeed))) == ["1", "2"]
  {
    var first := (feed, SampleFeed[0]);
    var second := (feed, SampleFeed[1]);
    assert Tag(feed, SampleFeed) == [first, second];
    MicePostAccepted(feed, "/1.html", SampleFeed[0].description);
    MicePostAccepted(feed, "/2.html", SampleFeed[1].description);
    ScanTwoAccepted(CraigslistVerdict, first, second);
  }

  /** A post titled "mice" with a missing or textless description and a
      one-digit post link is accepted under that digit. */
  lemma MicePostAccepted(feed: string, link: string, description: Element)
    requires |link| == 7 && link[0] == '/' && IsDigit(link[1]) && link[2..] == ".html"
    requires description == NoText || description == Missing
    ensures var v := CraigslistVerdict((feed, RssItem(HasText("mice"), HasText(link), description, Missing)));
      v.Accept? && v.id == [link[1]]
  {
    ShortPostLink(link);
    MiceIsRelevant();
  }

  /** The title "mice" with an empty description mentions a pest keyword. */
  lemma MiceIsRelevant()
    ensures MentionsKeyword(RelevanceText("mice", ""))
  {
    var text := RelevanceText("mice", "");
    assert text == "mice " by { assert "mice" + " " + "" == "mice "; }
    assert Lower("mice") == "mice";
    assert OccursAt("mice", text, 0);
    ContainsIffOccurs(text, "mice");
    assert "mice" in Keywords;
  }

  /** As written, a new tweet whose description element has no text ends its
      account's feed when every item before it is skipped. */
  lemma TweetNoTextEndsFeed(account: string, items: seq<RssItem>, ledger: seq<string>, n: nat)
    requires n < |items|
    requires forall i :: 0 <= i < n ==> TweetStepAsWritten((account, items[i]), ledger).Skip?
    requires !items[n].title.Missing? && !items[n].link.Missing? && items[n].description.NoText?
    requires var id := TweetId(TextOf(items[n].link)); id.Some? && id.value !in ledger
    ensures FeedAsWritten(TweetStepAsWritten, ledger, Tag(account, items)) == []
  {
    var tagged := Tag(account, items);
    forall i | 0 <= i < n ensures TweetStepAsWritten(tagged[i], ledger).Skip? {
      assert tagged[i] == (account, items[i]);
    }
    assert tagged[n] == (account, items[n]);
    SkipsThenRaise(TweetStepAsWritten, ledger, tagged, n);
  }

  /** A Nitter feed holding one new tweet about mice in NYC whose description
      element has no text. */
  const SampleTweets: seq<RssItem> := [RssItem(HasText("nyc mice"), HasText("/status/1"), NoText, Missing)]

  /** As written, the sample tweet is lost. */
  lemma TweetSampleAsWritten(account: string)
    ensures FeedAsWritten(TweetStepAsWritten, [], Tag(account, SampleTweets)) == []
  {
    ShortStatusLink("/status/1");
    TweetNoTextEndsFeed(account, SampleTweets, [], 0);
  }

  /** Read as intended, the sample tweet is reported. */
  lemma TweetSampleIntended(account: string)
    ensures Ids(Scan(TweetVerdict, [], Tag(account, SampleTweets))) == ["1"]
  {
    var only := (account, SampleTweets[0]);
    assert Tag(account, SampleTweets) == [only];
    NycMiceTweetAccepted(account, "/status/1");
    assert [only] == [] + [only];
    ScanSnoc(TweetVerdict, [], [], only);
  }

  /** A tweet "nyc mice" with a textless description and a one-digit status
      link is accepted under that digit. */
  lemma NycMiceTweetAccepted(account: string, link: string)
    requires |link| == 9 && link[..8] == "/status/" && IsDigit(link[8])
    ensures var v := TweetVerdict((account, RssItem(HasText("nyc mice"), HasText(link), NoText, Missing)));
      v.Accept? && v.id == [link[8]]
  {
    ShortStatusLink(link);
    NycMiceIsRelevant();
  }

  /** "nyc mice" with an empty description mentions a pest keyword and NYC. */
  lemma NycMiceIsRelevant()
    ensures MentionsKeyword(RelevanceText("nyc mice", "")) && MentionsNyc(RelevanceText("nyc mice", ""))
  {
    var text := RelevanceText("nyc mice", "");
    assert text == "nyc mice " by { assert "nyc mice" + " " + "" == "nyc mice "; }
    assert Lower("mice") == "mice";
    assert OccursAt("mice", text, 4);
    ContainsIffOccurs(text, "mice");
    assert "mice" in Keywords;
    assert OccursAt("nyc", text, 0);
    ContainsIffOccurs(text, "nyc");
    assert "nyc" in NycKeywords;
  }

  /** A link `/status/d` with one digit `d` holds the status id `d`. */
  lemma ShortStatusLink(link: string)
    requires |link| == 9 && link[..8] == "/status/" && IsDigit(link[8])
    ensures TweetId(link) == Some([link[8]])
  {
    assert DigitRun(link, 9) == [];
    assert DigitRun(link, 8) == [link[8]];
    assert StatusAt(link, 0);
  }

  /** A link of the form `/d.html` with one digit `d` holds the post id `d`. */
  lemma ShortPostLink(link: string)
    requires |link| == 7 && link[0] == '/' && IsDigit(link[1]) && link[2..] == ".html"
    ensures HtmlPostId(link) == Some([link[1]])
  {
    assert !IsDigit(link[2]) by { assert link[2] == link[2..][0]; }
    assert DigitRun(link, 2) == [];
    assert DigitRun(link, 1) == [link[1]];
    assert HtmlAt(link, 0);
  }
}
