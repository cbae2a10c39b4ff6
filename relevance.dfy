/** The relevance tests of the social sources: the pest keyword list, the NYC
    keyword list and the NYC subreddits. */
module Relevance {
  import opened Text

  /** The pest and property-problem words a social post must mention. */
  const Keywords: seq<string> := [
    "pest control", "exterminator", "mice", "rats", "rodent", "roaches",
    "ants", "bed bug", "bedbug", "termites", "violation", "bees", "wasps",
    "cockroach", "infestation", "vermin", "mold", "water damage"
  ]

  /** The place names Reddit and Twitter posts are tested for. */
  const NycKeywords: seq<string> := ["nyc", "new york", "brooklyn", "queens", "bronx", "manhattan"]

  /** The subreddits whose posts need no NYC keyword. */
  const NycSubreddits: seq<string> := ["asknyc", "nyc", "brooklyn", "queens", "bronx"]

  /** Some pest keyword, lowered, occurs in `text`. */
  predicate MentionsKeyword(text: string) {
    exists k :: k in Keywords && Contains(text, Lower(k))
  }

  /** Some NYC place name occurs in `text`. */
  predicate MentionsNyc(text: string) {
    exists k :: k in NycKeywords && Contains(text, k)
  }

  /** The subreddit, lowered, is one of the NYC ones. */
  predicate IsNycSubreddit(subreddit: string) {
    Lower(subreddit) in NycSubreddits
  }

  /** The text a post is judged on: title, a space and body, lowered. */
  function RelevanceText(title: string, body: string): string {
    Lower(title + " " + body)
  }

  /** Reddit lowers title and body separately before joining them; the result is
      the same text Craigslist and Twitter lower after joining. */
  lemma RedditTextIsRelevanceText(title: string, body: string)
    ensures Lower(title) + " " + Lower(body) == RelevanceText(title, body)
  {
    LowerAppend(title, " " + body);
    LowerAppend(" ", body);
    assert Lower(" ") == " ";
  }

  /** The keyword test is a substring test: some keyword, lowered, occurs in the text at some offset. */
  lemma MentionsKeywordIffOccurs(text: string)
    ensures MentionsKeyword(text) <==>
      exists k, i: nat :: k in Keywords && OccursAt(Lower(k), text, i)
  {
    forall k | k in Keywords ensures Contains(text, Lower(k)) <==> exists i: nat :: OccursAt(Lower(k), text, i) {
      ContainsIffOccurs(text, Lower(k));
    }
  }
}
