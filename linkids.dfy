/** The post and tweet identifiers the monitor pulls out of RSS links with a
    regular-expression search: a Craigslist post id is the digits between a
    slash and ".html", a tweet id the digits after "/status/" (Twitter read
    through Nitter). Each search is written out as a left-to-right scan; its
    contract states the leftmost-match and greedy-group semantics of the
    expression. */
module LinkIds {
  import opened Text

  /** The longest run of digits in `s` that starts at offset `j`. */
  function DigitRun(s: string, j: nat): (r: string)
    requires j <= |s|
    ensures j + |r| <= |s| && r == s[j..j + |r|]
    ensures forall m :: j <= m < j + |r| ==> IsDigit(s[m])
    ensures j + |r| == |s| || !IsDigit(s[j + |r|])
    decreases |s| - j
  {
    if j < |s| && IsDigit(s[j]) then [s[j]] + DigitRun(s, j + 1) else []
  }

  // ------------------------------------------------------- Craigslist post ids

  /** A slash, `k` digits and ".html" stand in `link` at offset `i`. */
  ghost predicate HtmlMatch(link: string, i: nat, k: nat) {
    && i + 1 + k + 5 <= |link|
    && link[i] == '/'
    && k > 0
    && (forall m :: i + 1 <= m < i + 1 + k ==> IsDigit(link[m]))
    && link[i + 1 + k..i + 1 + k + 5] == ".html"
  }

  /** The scanner's test at one offset: a slash, a run of digits, then ".html". */
  predicate HtmlAt(link: string, i: nat)
    requires i < |link|
  {
    var d := DigitRun(link, i + 1);
    link[i] == '/' && |d| > 0 && ".html" <= link[i + 1 + |d|..]
  }

  /** The scanner's test agrees with the regular expression, and the group is the digit run. */
  lemma HtmlAtIffMatch(link: string, i: nat, k: nat)
    requires i < |link|
    ensures HtmlMatch(link, i, k) <==> HtmlAt(link, i) && k == |DigitRun(link, i + 1)|
  {
    var d := DigitRun(link, i + 1);
    if HtmlMatch(link, i, k) {
      assert link[i + 1 + k] == link[i + 1 + k..i + 1 + k + 5][0] == '.';
      assert |d| == k;
      assert link[i + 1 + |d|..][..5] == ".html";
    }
    if HtmlAt(link, i) && k == |d| {
      assert link[i + 1 + k..i + 1 + k + 5] == link[i + 1 + |d|..][..5];
    }
  }

  /** The post-id pattern matches nowhere in `link` at or after offset `from`. */
  ghost predicate NoHtmlMatchFrom(link: string, from: nat) {
    forall i: nat, k: nat :: from <= i ==> !HtmlMatch(link, i, k)
  }

  /** The leftmost match at or after `from` is at offset `i`, with group `g`. */
  ghost predicate LeftmostHtmlMatch(link: string, from: nat, i: nat, g: string) {
    && from <= i
    && HtmlMatch(link, i, |g|)
    && g == link[i + 1..i + 1 + |g|]
    && forall i': nat, k': nat :: from <= i' < i ==> !HtmlMatch(link, i', k')
  }

  /** The scan for the post-id pattern from offset `from` on. */
  function HtmlPostIdFrom(link: string, from: nat): Option<string>
    requires from <= |link|
    decreases |link| - from
  {
    if from == |link| then None
    else if HtmlAt(link, from) then Some(DigitRun(link, from + 1))
    else HtmlPostIdFrom(link, from + 1)
  }

  /** The scan from `from` finds nothing exactly when the expression does not
      match at or after `from`; otherwise it returns the group of the leftmost
      match there. */
  lemma {:induction false} HtmlPostIdFromIsLeftmost(link: string, from: nat)
    requires from <= |link|
    ensures HtmlPostIdFrom(link, from).None? <==> NoHtmlMatchFrom(link, from)
    ensures HtmlPostIdFrom(link, from).Some? ==>
      exists i: nat :: LeftmostHtmlMatch(link, from, i, HtmlPostIdFrom(link, from).value)
    decreases |link| - from
  {
    if from == |link| {
      assert NoHtmlMatchFrom(link, from);
    } else if HtmlAt(link, from) {
      var d := DigitRun(link, from + 1);
      HtmlAtIffMatch(link, from, |d|);
      assert LeftmostHtmlMatch(link, from, from, d);
    } else {
      HtmlPostIdFromIsLeftmost(link, from + 1);
      NoHtmlMatchAt(link, from);
      assert NoHtmlMatchFrom(link, from) <==> NoHtmlMatchFrom(link, from + 1) by {
        if NoHtmlMatchFrom(link, from + 1) {
          forall i: nat, k: nat | from <= i ensures !HtmlMatch(link, i, k) {
            if i > from {
              assert from + 1 <= i;
            }
          }
        }
      }
      var r := HtmlPostIdFrom(link, from + 1);
      if r.Some? {
        var i: nat :| LeftmostHtmlMatch(link, from + 1, i, r.value);
        assert LeftmostHtmlMatch(link, from, i, r.value) by {
          forall i': nat, k': nat | from <= i' < i ensures !HtmlMatch(link, i', k') {
            if i' > from {
              assert from + 1 <= i' < i;
            }
          }
        }
      }
    }
  }

  /** Where the scanner's test fails, the expression matches with no group length. */
  lemma NoHtmlMatchAt(link: string, i: nat)
    requires i < |link| && !HtmlAt(link, i)
    ensures forall k: nat :: !HtmlMatch(link, i, k)
  {
    forall k: nat ensures !HtmlMatch(link, i, k) { HtmlAtIffMatch(link, i, k); }
  }

  /** The post id of a Craigslist link: `None` when the pattern matches
      nowhere, otherwise the digits of the leftmost match. */
  function HtmlPostId(link: string): (r: Option<string>)
    ensures r.None? <==> NoHtmlMatchFrom(link, 0)
    ensures r.Some? ==> exists i: nat :: LeftmostHtmlMatch(link, 0, i, r.value)
  {
    HtmlPostIdFromIsLeftmost(link, 0);
    HtmlPostIdFrom(link, 0)
  }

  /** At a given offset the expression can match with only one group length. */
  lemma HtmlGroupUnique(link: string, i: nat, k1: nat, k2: nat)
    requires HtmlMatch(link, i, k1) && HtmlMatch(link, i, k2)
    ensures k1 == k2
  {
    HtmlAtIffMatch(link, i, k1);
    HtmlAtIffMatch(link, i, k2);
  }

  // ------------------------------------------------------------ tweet ids

  /** "/status/" followed by `k` digits stands in `link` at offset `i`
      (not necessarily the longest: the greedy choice is stated separately). */
  ghost predicate StatusMatch(link: string, i: nat, k: nat) {
    && i + 8 + k <= |link|
    && link[i..i + 8] == "/status/"
    && k > 0
    && (forall m :: i + 8 <= m < i + 8 + k ==> IsDigit(link[m]))
  }

  predicate StatusAt(link: string, i: nat)
    requires i < |link|
  {
    "/status/" <= link[i..] && |DigitRun(link, i + 8)| > 0
  }

  lemma StatusAtIffMatch(link: string, i: nat)
    requires i < |link|
    ensures StatusAt(link, i) <==> exists k: nat :: StatusMatch(link, i, k)
    ensures StatusAt(link, i) ==> StatusMatch(link, i, |DigitRun(link, i + 8)|)
    ensures forall k: nat :: StatusMatch(link, i, k) ==> k <= |DigitRun(link, i + 8)|
  {
    if StatusAt(link, i) {
      assert link[i..i + 8] == link[i..][..8];
      assert StatusMatch(link, i, |DigitRun(link, i + 8)|);
    }
    forall k: nat | StatusMatch(link, i, k)
      ensures StatusAt(link, i) && k <= |DigitRun(link, i + 8)|
    {
      assert link[i..][..8] == link[i..i + 8];
    }
  }

  /** The status pattern matches nowhere in `link` at or after offset `from`. */
  ghost predicate NoStatusMatchFrom(link: string, from: nat) {
    forall i: nat, k: nat :: from <= i ==> !StatusMatch(link, i, k)
  }

  /** The leftmost match at or after `from` is at offset `i`, and `g` is its
      group taken as long as the digits allow. */
  ghost predicate LeftmostStatusMatch(link: string, from: nat, i: nat, g: string) {
    && from <= i
    && StatusMatch(link, i, |g|)
    && (forall k: nat :: StatusMatch(link, i, k) ==> k <= |g|)
    && g == link[i + 8..i + 8 + |g|]
    && forall i': nat, k': nat :: from <= i' < i ==> !StatusMatch(link, i', k')
  }

  /** The scan for the status pattern from offset `from` on. */
  function TweetIdFrom(link: string, from: nat): Option<string>
    requires from <= |link|
    decreases |link| - from
  {
    if from == |link| then None
    else if StatusAt(link, from) then Some(DigitRun(link, from + 8))
    else TweetIdFrom(link, from + 1)
  }

  /** The scan from `from` finds nothing exactly when the expression does not
      match at or after `from`; otherwise it returns the longest group of the
      leftmost match there. */
  lemma {:induction false} TweetIdFromIsLeftmost(link: string, from: nat)
    requires from <= |link|
    ensures TweetIdFrom(link, from).None? <==> NoStatusMatchFrom(link, from)
    ensures TweetIdFrom(link, from).Some? ==>
      exists i: nat :: LeftmostStatusMatch(link, from, i, TweetIdFrom(link, from).value)
    decreases |link| - from
  {
    if from == |link| {
      assert NoStatusMatchFrom(link, from);
    } else if StatusAt(link, from) {
      StatusAtIffMatch(link, from);
      var d := DigitRun(link, from + 8);
      assert LeftmostStatusMatch(link, from, from, d);
    } else {
      TweetIdFromIsLeftmost(link, from + 1);
      StatusAtIffMatch(link, from);
      assert NoStatusMatchFrom(link, from) <==> NoStatusMatchFrom(link, from + 1) by {
        if NoStatusMatchFrom(link, from + 1) {
          forall i: nat, k: nat | from <= i ensures !StatusMatch(link, i, k) {
            if i > from {
              assert from + 1 <= i;
            }
          }
        }
      }
      var r := TweetIdFrom(link, from + 1);
      if r.Some? {
        var i: nat :| LeftmostStatusMatch(link, from + 1, i, r.value);
        assert LeftmostStatusMatch(link, from, i, r.value) by {
          forall i': nat, k': nat | from <= i' < i ensures !StatusMatch(link, i', k') {
            if i' > from {
              assert from + 1 <= i' < i;
            }
          }
        }
      }
    }
  }

  /** The tweet id of a Nitter link: `None`
      when there is no match, otherwise the leftmost match with the group as
      long as the digits allow. */
  function TweetId(link: string): (r: Option<string>)
    ensures r.None? <==> NoStatusMatchFrom(link, 0)
    ensures r.Some? ==> exists i: nat :: LeftmostStatusMatch(link, 0, i, r.value)
  {
    TweetIdFromIsLeftmost(link, 0);
    TweetIdFrom(link, 0)
  }
}
