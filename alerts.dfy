/** What the monitor decides about the e-mail once the seven sources have been
    checked: whether anything is sent at all, the lead count in the subject,
    the per-source sections with their counts, and which HPD cards are marked
    as emergencies. The HTML markup and the SendGrid request are not modelled. */
module Alerts {
  import opened Text
  import opened Sources

  /** The seven lead lists of one run, in the order `send_email_alert` takes them. */
  datatype RunLeads = RunLeads(
    hpd: seq<HpdLead>, dohmh: seq<DohmhLead>, complaints: seq<ComplaintLead>, dob: seq<DobLead>,
    craigslist: seq<CraigslistLead>, twitter: seq<TweetLead>, reddit: seq<RedditLead>)

  /** The early return of the alert: every list is empty. */
  predicate NoLeads(r: RunLeads) {
    && r.hpd == [] && r.dohmh == [] && r.complaints == [] && r.dob == []
    && r.craigslist == [] && r.twitter == [] && r.reddit == []
  }

  /** The run's total, as the run summary and the subject count it. */
  function TotalLeads(r: RunLeads): nat {
    |r.hpd| + |r.dohmh| + |r.complaints| + |r.dob| + |r.craigslist| + |r.twitter| + |r.reddit|
  }

  /** One source's block of the message: its heading and the "(n new)" count. */
  datatype Section = Section(title: string, count: nat)

  /** Every source's heading with its lead count, in the fixed order HPD,
      DOHMH, 311, DOB, Craigslist, Twitter, Reddit. */
  function Counts(r: RunLeads): seq<Section> {
    [ Section("HPD Housing Violations", |r.hpd|),
      Section("DOHMH Restaurant Violations", |r.dohmh|),
      Section("NYC 311 Complaints", |r.complaints|),
      Section("DOB Building Violations", |r.dob|),
      Section("Craigslist Posts", |r.craigslist|),
      Section("Twitter/X Posts", |r.twitter|),
      Section("Reddit Posts", |r.reddit|) ]
  }

  /** The sections of `s` that have leads, in order: one block per source that has leads. */
  function NonEmpty(s: seq<Section>): seq<Section> {
    if s == [] then []
    else (if s[0].count > 0 then [s[0]] else []) + NonEmpty(s[1..])
  }

  /** The sections of the message; a source without leads has none. */
  function Sections(r: RunLeads): seq<Section> {
    NonEmpty(Counts(r))
  }

  function SumCounts(s: seq<Section>): nat {
    if s == [] then 0 else s[0].count + SumCounts(s[1..])
  }

  /** Dropping the empty sections keeps order, membership of the others and the sum. */
  lemma {:induction false} NonEmptyKeeps(s: seq<Section>)
    ensures forall x :: x in NonEmpty(s) <==> x in s && x.count > 0
    ensures SumCounts(NonEmpty(s)) == SumCounts(s)
  {
    if s != [] {
      NonEmptyKeeps(s[1..]);
      var head := if s[0].count > 0 then [s[0]] else [];
      assert s == [s[0]] + s[1..];
      if s[0].count > 0 {
        assert (head + NonEmpty(s[1..]))[1..] == NonEmpty(s[1..]);
      } else {
        assert head + NonEmpty(s[1..]) == NonEmpty(s[1..]);
      }
    }
  }

  /** The "(n new)" counts of the sections add up to the run's total. */
  lemma SectionCountsSumToTotal(r: RunLeads)
    ensures SumCounts(Sections(r)) == TotalLeads(r)
  {
    NonEmptyKeeps(Counts(r));
    var c := Counts(r);
    assert SumCounts(c[6..]) == |r.reddit|;
    assert SumCounts(c[5..]) == |r.twitter| + SumCounts(c[6..]) by { assert c[5..][1..] == c[6..]; }
    assert SumCounts(c[4..]) == |r.craigslist| + SumCounts(c[5..]) by { assert c[4..][1..] == c[5..]; }
    assert SumCounts(c[3..]) == |r.dob| + SumCounts(c[4..]) by { assert c[3..][1..] == c[4..]; }
    assert SumCounts(c[2..]) == |r.complaints| + SumCounts(c[3..]) by { assert c[2..][1..] == c[3..]; }
    assert SumCounts(c[1..]) == |r.dohmh| + SumCounts(c[2..]) by { assert c[1..][1..] == c[2..]; }
  }

  /** A source has a section exactly when it has leads. */
  lemma SectionsOnlyForLeads(r: RunLeads)
    ensures forall s :: s in Sections(r) ==> s.count > 0
    ensures forall i :: 0 <= i < |Counts(r)| ==> (Counts(r)[i] in Sections(r) <==> Counts(r)[i].count > 0)
  {
    NonEmptyKeeps(Counts(r));
  }

  /** A class C violation is immediately hazardous: its card is marked as an emergency. */
  predicate IsEmergency(v: HpdLead) {
    v.violationClass == "C"
  }

  const SubjectPrefix: string := "\U{1F3AF} "
  const SubjectSuffix: string := " New Leads - NYC Pest Control"

  /** The subject line for a run of `total` leads. */
  function Subject(total: nat): string {
    SubjectPrefix + Decimal(total) + SubjectSuffix
  }

  /** How a reader of the subject line recovers the count: `None` when the line
      does not have the subject's shape. */
  function SubjectCount(subject: string): Option<nat> {
    if |subject| < |SubjectPrefix| + |SubjectSuffix| then None
    else if !(SubjectPrefix <= subject) || subject[|subject| - |SubjectSuffix|..] != SubjectSuffix then None
    else
      var digits := subject[|SubjectPrefix|..|subject| - |SubjectSuffix|];
      if digits != [] && forall i :: 0 <= i < |digits| ==> IsDigit(digits[i])
      then Some(DecimalValue(digits))
      else None
  }

  /** The subject states the count it was built from. */
  lemma SubjectCountRoundTrip(total: nat)
    ensures SubjectCount(Subject(total)) == Some(total)
  {
    var s := Subject(total);
    DecimalRoundTrip(total);
    assert s[|SubjectPrefix|..|s| - |SubjectSuffix|] == Decimal(total);
    assert s[|s| - |SubjectSuffix|..] == SubjectSuffix;
  }

  /** The message the alert would send. */
  datatype Alert = Alert(subject: string, sections: seq<Section>, hpdEmergency: seq<bool>)

  /** `send_email_alert`: nothing when every list is empty; otherwise a message
      whose subject states the total, whose sections count the leads of each
      non-empty source and add up to the same total, and which marks exactly
      the class C HPD violations as emergencies. */
  function SendEmailAlert(r: RunLeads): (a: Option<Alert>)
    ensures a.None? <==> NoLeads(r)
    ensures a.Some? ==> SubjectCount(a.value.subject) == Some(TotalLeads(r))
    ensures a.Some? ==> SumCounts(a.value.sections) == TotalLeads(r)
    ensures a.Some? ==> |a.value.hpdEmergency| == |r.hpd|
    ensures a.Some? ==> forall i :: 0 <= i < |r.hpd| ==> (a.value.hpdEmergency[i] <==> r.hpd[i].violationClass == "C")
  {
    if NoLeads(r) then None
    else
      SubjectCountRoundTrip(TotalLeads(r));
      SectionCountsSumToTotal(r);
      Some(Alert(
        Subject(TotalLeads(r)),
        Sections(r),
        seq(|r.hpd|, i requires 0 <= i < |r.hpd| => IsEmergency(r.hpd[i]))))
  }

  /** `main`: the alert is attempted only when the total is positive. That guard
      and the alert's own emptiness test agree, so a message goes out exactly
      when at least one lead was found. */
  function MainAlert(r: RunLeads): (a: Option<Alert>)
    ensures a == SendEmailAlert(r)
    ensures a.Some? <==> TotalLeads(r) > 0
  {
    if TotalLeads(r) > 0 then SendEmailAlert(r) else None
  }
}
