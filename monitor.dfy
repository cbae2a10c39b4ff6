/** The seen-ledger and one monitoring run. The ledger maps each source name to
    the ids already reported for it, oldest first; each check walks the records
    fetched for its source, reports the ones whose id is new, appends each such
    id as soon as it is reported, and finally keeps only the newest `Cap` ids
    of that source. Fetching is abstracted away: a check receives what the
    fetch returned, `None` when it failed. */
module Monitor {
  import opened Text
  import opened Dedup
  import opened Sources
  import opened Alerts

  type Seen = map<string, seq<string>>

  const HpdKey: string := "hpd"
  const DohmhKey: string := "dohmh"
  const ComplaintKey: string := "311"
  const DobKey: string := "dob"
  const RedditKey: string := "reddit"
  const CraigslistKey: string := "craigslist"
  const TwitterKey: string := "twitter"

  const SourceKeys: set<string> := {HpdKey, DohmhKey, ComplaintKey, DobKey, RedditKey, CraigslistKey, TwitterKey}

  /** The ledger used when none has been saved yet: an empty list per source. */
  function EmptyLedger(): (seen: Seen)
    ensures seen.Keys == SourceKeys
    ensures forall k :: k in seen ==> seen[k] == []
  {
    map[HpdKey := [], DohmhKey := [], RedditKey := [], ComplaintKey := [], DobKey := [],
        CraigslistKey := [], TwitterKey := []]
  }

  /** No source's list holds an id twice. */
  ghost predicate NoDuplicates(seen: Seen) {
    forall k :: k in seen ==> Distinct(seen[k])
  }

  /** The social checks index the ledger outside their error handling, so they
      need their lists to exist. */
  predicate HasSocialKeys(seen: Seen) {
    RedditKey in seen && CraigslistKey in seen && TwitterKey in seen
  }

  /** The ledger after a check of `key` reported `found`: the new ids appended
      to that source's list, which is then cut to its newest `Cap` ids. Every
      other source's list is left as it was. */
  function Commit<L>(seen: Seen, key: string, found: seq<(string, L)>): (after: Seen)
    requires key in seen
    ensures after.Keys == seen.Keys
    ensures forall k :: k in seen && k != key ==> after[k] == seen[k]
  {
    seen[key := Retain(seen[key] + Ids(found))]
  }

  /** What committing `found` leaves in the source's list: at most `Cap` ids;
      exactly the old list followed by the new ids when those fit; the newest
      ids otherwise; every new id when at most `Cap` were added; and no
      duplicates anywhere when the new ids are fresh and distinct. */
  lemma CommitKeeps<L>(seen: Seen, key: string, found: seq<(string, L)>)
    requires key in seen
    ensures var after := Commit(seen, key, found)[key];
      && |after| <= Cap
      && after == (seen[key] + Ids(found))[|seen[key]| + |found| - |after|..]
      && (|seen[key]| + |found| <= Cap ==> after == seen[key] + Ids(found))
      && (|found| <= Cap ==> forall x :: x in Ids(found) ==> x in after)
    ensures NoDuplicates(seen) && Distinct(seen[key] + Ids(found)) ==> NoDuplicates(Commit(seen, key, found))
  {
    var after := Commit(seen, key, found);
    RetainAppend(seen[key], Ids(found));
    if NoDuplicates(seen) && Distinct(seen[key] + Ids(found)) {
      forall k | k in after ensures Distinct(after[k]) {
        if k != key {
          assert after[k] == seen[k];
        }
      }
    }
  }

  /** A Socrata check (HPD, DOHMH, 311, DOB): a failed fetch or a ledger without
      the source's list reports nothing and leaves the ledger as it was. */
  function SocrataCheck<R, L>(classify: R -> Verdict<L>, key: string, seen: Seen, fetched: Option<seq<R>>): (out: (seq<L>, Seen))
    ensures out.1.Keys == seen.Keys
    ensures forall k :: k in seen && k != key ==> out.1[k] == seen[k]
    ensures fetched.None? || key !in seen ==> out == ([], seen)
  {
    if fetched.None? || key !in seen then ([], seen)
    else
      var found := Scan(classify, seen[key], fetched.value);
      (Leads(found), Commit(seen, key, found))
  }

  /** A social check (Reddit, Craigslist, Twitter): the partitions are visited
      in order, a failed partition contributing nothing, and the whole visit is
      one scan against the source's list. */
  function SocialCheck<T, L>(classify: ((string, T)) -> Verdict<L>, key: string, names: seq<string>,
                             pages: seq<Option<seq<T>>>, seen: Seen): (out: (seq<L>, Seen))
    requires key in seen && |names| == |pages|
    ensures out.1.Keys == seen.Keys
    ensures forall k :: k in seen && k != key ==> out.1[k] == seen[k]
  {
    var found := Scan(classify, seen[key], Flatten(names, pages));
    (Leads(found), Commit(seen, key, found))
  }

  /** One partition more: the step of the outer loop of a social check. The
      partition's items are scanned against the ledger left by the ones before. */
  lemma PartitionStep<T, L>(classify: ((string, T)) -> Verdict<L>, before: seq<string>,
                            names: seq<string>, pages: seq<Option<seq<T>>>, p: nat)
    requires |names| == |pages| && p < |pages|
    ensures var found := Scan(classify, before, Flatten(names[..p], pages[..p]));
      Scan(classify, before, Flatten(names[..p + 1], pages[..p + 1])) ==
        if pages[p].Some? then found + Scan(classify, before + Ids(found), Tag(names[p], pages[p].value))
        else found
  {
    assert names[..p + 1][..p] == names[..p];
    assert pages[..p + 1][..p] == pages[..p];
    var done := Flatten(names[..p], pages[..p]);
    if pages[p].Some? {
      ScanAppend(classify, before, done, Tag(names[p], pages[p].value));
    } else {
      assert Flatten(names[..p + 1], pages[..p + 1]) == done;
    }
  }

  /** The pairs a social check has reported after visiting its first `p`
      partitions, each partition scanned against the ids reported before it. */
  function Visited<T, L>(classify: ((string, T)) -> Verdict<L>, before: seq<string>,
                         names: seq<string>, pages: seq<Option<seq<T>>>, p: nat): seq<(string, L)>
    requires |names| == |pages| && p <= |pages|
  {
    if p == 0 then []
    else
      var done := Visited(classify, before, names, pages, p - 1);
      if pages[p - 1].Some? then done + Scan(classify, before + Ids(done), Tag(names[p - 1], pages[p - 1].value))
      else done
  }

  /** Visiting the partitions one by one is one scan of all their items in order. */
  lemma {:induction false} VisitedIsScan<T, L>(classify: ((string, T)) -> Verdict<L>, before: seq<string>,
                                               names: seq<string>, pages: seq<Option<seq<T>>>, p: nat)
    requires |names| == |pages| && p <= |pages|
    ensures Visited(classify, before, names, pages, p) == Scan(classify, before, Flatten(names[..p], pages[..p]))
  {
    if p > 0 {
      VisitedIsScan(classify, before, names, pages, p - 1);
      PartitionStep(classify, before, names, pages, p - 1);
    } else {
      assert Flatten(names[..0], pages[..0]) == [];
    }
  }

  /** What one check promises about the leads it returns, for a source whose
      leads carry their id as `idOf`: when it reports anything, every reported
      id was absent from the source's list before the check, no id is
      reported twice, and (when no more than `Cap` were reported) every
      reported id is in the list the check saved, so a later run skips it. */
  ghost predicate ReportsNew<L>(idOf: L -> string, leads: seq<L>, key: string, before: Seen, after: Seen) {
    leads != [] ==>
      && key in before && key in after
      && (forall i :: 0 <= i < |leads| ==> idOf(leads[i]) !in before[key])
      && (forall i, j :: 0 <= i < j < |leads| ==> idOf(leads[i]) != idOf(leads[j]))
      && (|leads| <= Cap ==> forall i :: 0 <= i < |leads| ==> idOf(leads[i]) in after[key])
  }

  /** The source's leads carry the id they were accepted under. */
  ghost predicate CarriesId<R(!new), L>(classify: R -> Verdict<L>, idOf: L -> string) {
    forall r :: classify(r).Accept? ==> idOf(classify(r).lead) == classify(r).id
  }

  /** Scanning a batch against the source's list and committing the result
      reports only new ids, each once, and keeps the ledger free of duplicates. */
  lemma CommitReportsNew<R(!new), L>(classify: R -> Verdict<L>, idOf: L -> string, key: string, seen: Seen, batch: seq<R>)
    requires key in seen && CarriesId(classify, idOf)
    ensures var found := Scan(classify, seen[key], batch);
      var after := Commit(seen, key, found);
      && ReportsNew(idOf, Leads(found), key, seen, after)
      && |after[key]| <= Cap
      && (NoDuplicates(seen) ==> NoDuplicates(after))
  {
    var found := Scan(classify, seen[key], batch);
    var leads := Leads(found);
    CommitKeeps(seen, key, found);
    ScanDistinct(classify, seen[key], batch);
    ScanSound(classify, seen[key], batch);
    forall i | 0 <= i < |leads| ensures idOf(leads[i]) == Ids(found)[i] {
      assert found[i] in found;
    }
  }

  /** The four NYC Open Data checks keep their promise, whatever the fetch returned. */
  lemma SocrataReportsNew<R(!new), L>(classify: R -> Verdict<L>, idOf: L -> string, key: string, seen: Seen, fetched: Option<seq<R>>)
    requires CarriesId(classify, idOf)
    ensures var out := SocrataCheck(classify, key, seen, fetched);
      && ReportsNew(idOf, out.0, key, seen, out.1)
      && (key in seen && fetched.Some? ==> |out.1[key]| <= Cap)
      && (NoDuplicates(seen) ==> NoDuplicates(out.1))
  {
    if fetched.Some? && key in seen {
      CommitReportsNew(classify, idOf, key, seen, fetched.value);
    }
  }

  /** The three social checks keep their promise, and always trim their list. */
  lemma SocialReportsNew<T(!new), L>(classify: ((string, T)) -> Verdict<L>, idOf: L -> string, key: string,
                               names: seq<string>, pages: seq<Option<seq<T>>>, seen: Seen)
    requires key in seen && |names| == |pages| && CarriesId(classify, idOf)
    ensures var out := SocialCheck(classify, key, names, pages, seen);
      && ReportsNew(idOf, out.0, key, seen, out.1)
      && |out.1[key]| <= Cap
      && (NoDuplicates(seen) ==> NoDuplicates(out.1))
  {
    CommitReportsNew(classify, idOf, key, seen, Flatten(names, pages));
  }

  /** What the fetches of one run returned: one batch per NYC Open Data source,
      and one page per feed, account and subreddit, `None` where the request
      failed. */
  datatype Fetched = Fetched(
    hpd: Option<seq<Record>>, dohmh: Option<seq<Record>>, complaints: Option<seq<Record>>, dob: Option<seq<Record>>,
    craigslist: seq<Option<seq<RssItem>>>, twitter: seq<Option<seq<RssItem>>>, reddit: seq<Option<seq<Record>>>)

  /** One page per partition of each social source. */
  predicate WellFormed(f: Fetched) {
    && |f.craigslist| == |CraigslistFeeds|
    && |f.twitter| == |TwitterAccounts|
    && |f.reddit| == |Subreddits|
  }

  /** The four NYC Open Data checks of a run, in the order `main` calls them. */
  function OpenDataChecks(seen: Seen, f: Fetched)
    : (out: (seq<HpdLead>, seq<DohmhLead>, seq<ComplaintLead>, seq<DobLead>, Seen))
    ensures out.4.Keys == seen.Keys
    ensures forall k :: k in seen && k !in {HpdKey, DohmhKey, ComplaintKey, DobKey} ==> out.4[k] == seen[k]
  {
    var (hpd, s1) := SocrataCheck(HpdVerdict, HpdKey, seen, f.hpd);
    var (dohmh, s2) := SocrataCheck(DohmhVerdict, DohmhKey, s1, f.dohmh);
    var (complaints, s3) := SocrataCheck(ComplaintVerdict, ComplaintKey, s2, f.complaints);
    var (dob, s4) := SocrataCheck(DobVerdict, DobKey, s3, f.dob);
    (hpd, dohmh, complaints, dob, s4)
  }

  /** The three social checks that follow them. */
  function SocialChecks(seen: Seen, f: Fetched)
    : (out: (seq<CraigslistLead>, seq<TweetLead>, seq<RedditLead>, Seen))
    requires HasSocialKeys(seen) && WellFormed(f)
    ensures out.3.Keys == seen.Keys
    ensures forall k :: k in seen && k !in {CraigslistKey, TwitterKey, RedditKey} ==> out.3[k] == seen[k]
  {
    var (craigslist, s5) := SocialCheck(CraigslistVerdict, CraigslistKey, CraigslistFeeds, f.craigslist, seen);
    var (twitter, s6) := SocialCheck(TweetVerdict, TwitterKey, TwitterAccounts, f.twitter, s5);
    var (reddit, s7) := SocialCheck(RedditVerdict, RedditKey, Subreddits, f.reddit, s6);
    (craigslist, twitter, reddit, s7)
  }

  /** `main`: the seven checks, each starting from the ledger the previous one
      saved. Only the seven sources' lists can change. */
  function MonitorRun(seen: Seen, f: Fetched): (out: (RunLeads, Seen))
    requires HasSocialKeys(seen) && WellFormed(f)
    ensures out.1.Keys == seen.Keys
    ensures forall k :: k in seen && k !in SourceKeys ==> out.1[k] == seen[k]
  {
    var (hpd, dohmh, complaints, dob, s4) := OpenDataChecks(seen, f);
    var (craigslist, twitter, reddit, s7) := SocialChecks(s4, f);
    (RunLeads(hpd, dohmh, complaints, dob, craigslist, twitter, reddit), s7)
  }

  function HpdIdOf(l: HpdLead): string { l.id }
  function DohmhIdOf(l: DohmhLead): string { l.id }
  function ComplaintIdOf(l: ComplaintLead): string { l.id }
  function DobIdOf(l: DobLead): string { l.id }
  function CraigslistIdOf(l: CraigslistLead): string { l.id }
  function TweetIdOf(l: TweetLead): string { l.id }
  function RedditIdOf(l: RedditLead): string { l.id }

  /** The ledger as the checks of one run load and save it. A check works on
      a copy and stores it back only when it gets through its batch, so a check
      that fails part-way leaves the saved ledger as it was. */
  class Ledger {
    var seen: Seen

    /** The ledger of a first run. */
    constructor ()
      ensures seen == EmptyLedger()
    {
      seen := EmptyLedger();
    }

    /** The body shared by the four NYC Open Data checks: nothing is saved when
        the fetch failed or the ledger has no list for the source. */
    method CheckSocrata<R, L>(classify: R -> Verdict<L>, key: string, fetched: Option<seq<R>>)
      returns (leads: seq<L>)
      modifies this
      ensures (leads, seen) == SocrataCheck(classify, key, old(seen), fetched)
    {
      leads := [];
      if fetched.None? {
        return;
      }
      var ledger := seen;
      if key !in ledger {
        return;
      }
      var ids;
      leads, ids := ScanBatch(classify, fetched.value, ledger[key]);
      ledger := ledger[key := Retain(ids)];
      seen := ledger;
    }

    /** The body shared by the three social checks: every partition in order,
        a failed one skipped, the source's list growing as ids are reported,
        and one trim at the end. */
    method CheckSocial<T, L>(classify: ((string, T)) -> Verdict<L>, key: string, names: seq<string>,
                             pages: seq<Option<seq<T>>>)
      returns (leads: seq<L>)
      requires key in seen && |names| == |pages|
      modifies this
      ensures (leads, seen) == SocialCheck(classify, key, names, pages, old(seen))
    {
      leads := [];
      var before := seen[key];
      var ids := before;
      ghost var found: seq<(string, L)> := [];
      assert before + Ids(found) == before;
      var p := 0;
      while p < |names|
        invariant 0 <= p <= |names|
        invariant found == Visited(classify, before, names, pages, p)
        invariant ids == before + Ids(found)
        invariant leads == Leads(found)
        invariant seen == old(seen)
      {
        if pages[p].Some? {
          var newLeads, pageIds := ScanBatch(classify, Tag(names[p], pages[p].value), ids);
          ghost var pageFound := Scan(classify, ids, Tag(names[p], pages[p].value));
          assert pageIds == before + Ids(found + pageFound) by {
            IdsConcat(found, pageFound);
          }
          found := found + pageFound;
          leads := leads + newLeads;
          ids := pageIds;
        }
        p := p + 1;
      }
      assert found == Scan(classify, before, Flatten(names, pages)) by {
        VisitedIsScan(classify, before, names, pages, p);
        assert names[..p] == names && pages[..p] == pages;
      }
      assert seen[key := Retain(ids)] == Commit(seen, key, found);
      seen := seen[key := Retain(ids)];
    }

    method CheckHpd(fetched: Option<seq<Record>>) returns (leads: seq<HpdLead>)
      modifies this
      ensures (leads, seen) == SocrataCheck(HpdVerdict, HpdKey, old(seen), fetched)
      ensures ReportsNew(HpdIdOf, leads, HpdKey, old(seen), seen)
      ensures NoDuplicates(old(seen)) ==> NoDuplicates(seen)
    {
      SocrataReportsNew(HpdVerdict, HpdIdOf, HpdKey, seen, fetched);
      leads := CheckSocrata(HpdVerdict, HpdKey, fetched);
    }

    method CheckDohmh(fetched: Option<seq<Record>>) returns (leads: seq<DohmhLead>)
      modifies this
      ensures (leads, seen) == SocrataCheck(DohmhVerdict, DohmhKey, old(seen), fetched)
      ensures ReportsNew(DohmhIdOf, leads, DohmhKey, old(seen), seen)
      ensures NoDuplicates(old(seen)) ==> NoDuplicates(seen)
    {
      SocrataReportsNew(DohmhVerdict, DohmhIdOf, DohmhKey, seen, fetched);
      leads := CheckSocrata(DohmhVerdict, DohmhKey, fetched);
    }

    method Check311(fetched: Option<seq<Record>>) returns (leads: seq<ComplaintLead>)
      modifies this
      ensures (leads, seen) == SocrataCheck(ComplaintVerdict, ComplaintKey, old(seen), fetched)
      ensures ReportsNew(ComplaintIdOf, leads, ComplaintKey, old(seen), seen)
      ensures NoDuplicates(old(seen)) ==> NoDuplicates(seen)
    {
      SocrataReportsNew(ComplaintVerdict, ComplaintIdOf, ComplaintKey, seen, fetched);
      leads := CheckSocrata(ComplaintVerdict, ComplaintKey, fetched);
    }

    method CheckDob(fetched: Option<seq<Record>>) returns (leads: seq<DobLead>)
      modifies this
      ensures (leads, seen) == SocrataCheck(DobVerdict, DobKey, old(seen), fetched)
      ensures ReportsNew(DobIdOf, leads, DobKey, old(seen), seen)
      ensures NoDuplicates(old(seen)) ==> NoDuplicates(seen)
    {
      SocrataReportsNew(DobVerdict, DobIdOf, DobKey, seen, fetched);
      leads := CheckSocrata(DobVerdict, DobKey, fetched);
    }

    /** `pages[p]` is what subreddit `Subreddits[p]` returned, `None` when its
        request failed. */
    method CheckReddit(pages: seq<Option<seq<Record>>>) returns (leads: seq<RedditLead>)
      requires RedditKey in seen && |pages| == |Subreddits|
      modifies this
      ensures (leads, seen) == SocialCheck(RedditVerdict, RedditKey, Subreddits, pages, old(seen))
      ensures ReportsNew(RedditIdOf, leads, RedditKey, old(seen), seen)
      ensures |seen[RedditKey]| <= Cap
      ensures NoDuplicates(old(seen)) ==> NoDuplicates(seen)
    {
      SocialReportsNew(RedditVerdict, RedditIdOf, RedditKey, Subreddits, pages, seen);
      leads := CheckSocial(RedditVerdict, RedditKey, Subreddits, pages);
    }

    /** `pages[p]` is the item list of feed `CraigslistFeeds[p]`, `None` when
        its request failed. */
    method CheckCraigslist(pages: seq<Option<seq<RssItem>>>) returns (leads: seq<CraigslistLead>)
      requires CraigslistKey in seen && |pages| == |CraigslistFeeds|
      modifies this
      ensures (leads, seen) == SocialCheck(CraigslistVerdict, CraigslistKey, CraigslistFeeds, pages, old(seen))
      ensures ReportsNew(CraigslistIdOf, leads, CraigslistKey, old(seen), seen)
      ensures |seen[CraigslistKey]| <= Cap
      ensures NoDuplicates(old(seen)) ==> NoDuplicates(seen)
    {
      SocialReportsNew(CraigslistVerdict, CraigslistIdOf, CraigslistKey, CraigslistFeeds, pages, seen);
      leads := CheckSocial(CraigslistVerdict, CraigslistKey, CraigslistFeeds, pages);
    }

    /** `pages[p]` is the item list of account `TwitterAccounts[p]`'s feed,
        `None` when its request failed. */
    method CheckTwitter(pages: seq<Option<seq<RssItem>>>) returns (leads: seq<TweetLead>)
      requires TwitterKey in seen && |pages| == |TwitterAccounts|
      modifies this
      ensures (leads, seen) == SocialCheck(TweetVerdict, TwitterKey, TwitterAccounts, pages, old(seen))
      ensures ReportsNew(TweetIdOf, leads, TwitterKey, old(seen), seen)
      ensures |seen[TwitterKey]| <= Cap
      ensures NoDuplicates(old(seen)) ==> NoDuplicates(seen)
    {
      SocialReportsNew(TweetVerdict, TweetIdOf, TwitterKey, TwitterAccounts, pages, seen);
      leads := CheckSocial(TweetVerdict, TwitterKey, TwitterAccounts, pages);
    }

    /** The first four checks of `main`. */
    method RunOpenData(f: Fetched)
      returns (hpd: seq<HpdLead>, dohmh: seq<DohmhLead>, complaints: seq<ComplaintLead>, dob: seq<DobLead>)
      modifies this
      ensures (hpd, dohmh, complaints, dob, seen) == OpenDataChecks(old(seen), f)
    {
      hpd := CheckHpd(f.hpd);
      dohmh := CheckDohmh(f.dohmh);
      complaints := Check311(f.complaints);
      dob := CheckDob(f.dob);
    }

    /** The last three checks of `main`. */
    method RunSocial(f: Fetched) returns (craigslist: seq<CraigslistLead>, twitter: seq<TweetLead>, reddit: seq<RedditLead>)
      requires HasSocialKeys(seen) && WellFormed(f)
      modifies this
      ensures (craigslist, twitter, reddit, seen) == SocialChecks(old(seen), f)
    {
      craigslist := CheckCraigslist(f.craigslist);
      twitter := CheckTwitter(f.twitter);
      reddit := CheckReddit(f.reddit);
    }

    /** `main`: the seven checks in order, then an alert exactly when the run
        found something. */
    method RunMonitor(f: Fetched) returns (run: RunLeads, alert: Option<Alert>)
      requires HasSocialKeys(seen) && WellFormed(f)
      modifies this
      ensures (run, seen) == MonitorRun(old(seen), f)
      ensures alert == MainAlert(run)
    {
      var hpd, dohmh, complaints, dob := RunOpenData(f);
      var craigslist, twitter, reddit := RunSocial(f);
      run := RunLeads(hpd, dohmh, complaints, dob, craigslist, twitter, reddit);
      var total := |hpd| + |dohmh| + |complaints| + |dob| + |craigslist| + |twitter| + |reddit|;
      if total > 0 {
        alert := SendEmailAlert(run);
      } else {
        alert := None;
      }
    }
  }
}
