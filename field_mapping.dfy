/**
 * How the two page handlers turn a decoded payload into output records:
 * the `x || undefined` mappings, the answered-question filter, and the two record builders.
 */
module FieldMapping {
  import opened Wrappers
  import opened Seqs
  import opened Interfaces
  import opened Payload
  import DateFormat
  import Youtube

  /** `value || undefined` for a string: a missing or empty string becomes absent, any other passes. */
  function OrAbsent(value: Option<string>): (r: Option<string>)
    ensures r.Some? <==> value.Some? && value.value != ""
    ensures r.Some? ==> r == value
  {
    match value
    case Some(s) => if s == "" then None else value
    case None => None
  }

  /** `value || undefined` for a boolean: only `true` survives. */
  function TrueOrAbsent(value: Option<bool>): (r: Option<bool>)
    ensures r == Some(true) <==> value == Some(true)
    ensures r != Some(false)
  {
    if value == Some(true) then value else None
  }

  /** An optional string that is either absent or non-empty. */
  predicate NonEmptyIfPresent(o: Option<string>)
  {
    o != Some("")
  }

  /** `r` is what `v || undefined` stores: `v` itself when it is a non-empty string, else absent. */
  predicate KeptIfNonEmpty(r: Option<string>, v: Option<string>)
  {
    (r.Some? <==> v.Some? && v.value != "") && (r.Some? ==> r == v)
  }

  predicate SocialsWellFormed(s: Socials)
  {
    && NonEmptyIfPresent(s.linkedin) && NonEmptyIfPresent(s.facebook) && NonEmptyIfPresent(s.crunchBase)
    && NonEmptyIfPresent(s.github) && NonEmptyIfPresent(s.twitter)
  }

  predicate FounderWellFormed(f: Founder)
  {
    NonEmptyIfPresent(f.role) && f.isActive != Some(false) && SocialsWellFormed(f.socials)
  }

  /**
   * What the `|| undefined` mappings and the question filter guarantee of every record the company
   * handler builds; attaching launch posts keeps it.
   */
  predicate WellFormed(d: CompanyDetails)
  {
    && SocialsWellFormed(d.socials)
    && NonEmptyIfPresent(d.locatedAt.location) && NonEmptyIfPresent(d.locatedAt.city)
    && NonEmptyIfPresent(d.locatedAt.country)
    && (forall i :: 0 <= i < |d.founders| ==> FounderWellFormed(d.founders[i]))
    && (forall i :: 0 <= i < |d.jobs| ==> NonEmptyIfPresent(d.jobs[i].roleSpecificType))
    && (d.freeResponseQuestionAnswers.Some? ==>
          && d.freeResponseQuestionAnswers.value != []
          && forall q :: q in d.freeResponseQuestionAnswers.value ==> q.answer != "")
  }

  /** The company's five links, each through `|| undefined`. */
  function CompanySocials(c: RawCompany): (s: Socials)
    ensures SocialsWellFormed(s)
    ensures && KeptIfNonEmpty(s.linkedin, c.linkedinUrl) && KeptIfNonEmpty(s.facebook, c.fbUrl)
            && KeptIfNonEmpty(s.crunchBase, c.cbUrl) && KeptIfNonEmpty(s.github, c.githubUrl)
            && KeptIfNonEmpty(s.twitter, c.twitterUrl)
  {
    Socials(OrAbsent(c.linkedinUrl), OrAbsent(c.fbUrl), OrAbsent(c.cbUrl), OrAbsent(c.githubUrl),
            OrAbsent(c.twitterUrl))
  }

  /** A founder's record; a founder's socials never carry a CrunchBase link. */
  function FounderRecord(f: RawFounder): (r: Founder)
    ensures FounderWellFormed(r)
    ensures r.name == f.fullName && r.bio == f.founderBio
    ensures r.isActive == Some(true) <==> f.isActive == Some(true)
    ensures r.socials.crunchBase.None?
    ensures KeptIfNonEmpty(r.role, f.title)
    ensures && KeptIfNonEmpty(r.socials.linkedin, f.linkedinUrl) && KeptIfNonEmpty(r.socials.facebook, f.facebookUrl)
            && KeptIfNonEmpty(r.socials.github, f.githubUrl) && KeptIfNonEmpty(r.socials.twitter, f.twitterUrl)
  {
    Founder(f.fullName, OrAbsent(f.title), TrueOrAbsent(f.isActive), f.founderBio,
            Socials(OrAbsent(f.linkedinUrl), OrAbsent(f.facebookUrl), None, OrAbsent(f.githubUrl),
                    OrAbsent(f.twitterUrl)))
  }

  /** A job posting: every field copied, `roleSpecificType` through `|| undefined`. */
  function JobRecord(j: RawJob): (r: JobPosting)
    ensures KeptIfNonEmpty(r.roleSpecificType, j.roleSpecificType)
    ensures && r.title == j.title && r.location == j.location && r.jobType == j.jobType && r.role == j.role
            && r.salaryRange == j.salaryRange && r.equityRange == j.equityRange
            && r.minExperience == j.minExperience && r.applyUrl == j.applyUrl
  {
    JobPosting(j.title, j.location, j.jobType, j.role, OrAbsent(j.roleSpecificType), j.salaryRange,
               j.equityRange, j.minExperience, j.applyUrl)
  }

  /** A news item: title, URL and date, nothing else. */
  function NewsRecord(n: RawNews): (r: NewsStory)
    ensures r.title == n.title && r.url == n.url && r.date == n.date
  {
    NewsStory(n.title, n.url, n.date)
  }

  /** `located_at`: each of the three fields present exactly when the company gives it non-empty. */
  function Location(c: RawCompany): (r: LocatedAt)
    ensures KeptIfNonEmpty(r.location, c.location) && KeptIfNonEmpty(r.city, c.city) && KeptIfNonEmpty(r.country, c.country)
  {
    LocatedAt(OrAbsent(c.location), OrAbsent(c.city), OrAbsent(c.country))
  }

  predicate Answered(q: QnA)
  {
    q.answer != ""
  }

  /** `.filter(qna => qna.answer !== '')`: the answered entries, in order, each as often as given. */
  function AnsweredQnA(qs: seq<QnA>): (r: seq<QnA>)
    ensures forall q :: q in r <==> q in qs && q.answer != ""
    ensures forall q :: multiset(r)[q] == if q.answer != "" then multiset(qs)[q] else 0
  {
    FilterMembers(Answered, qs);
    Filter(Answered, qs)
  }

  /** The answered entries keep their order: filtering distributes over concatenation. */
  lemma AnsweredQnAConcat(a: seq<QnA>, b: seq<QnA>)
    ensures AnsweredQnA(a + b) == AnsweredQnA(a) + AnsweredQnA(b)
  {
    FilterConcat(Answered, a, b);
  }

  /** The question field is attached only when something was answered. */
  function QnAField(qs: seq<QnA>): (r: Option<seq<QnA>>)
    ensures r.Some? <==> exists q :: q in qs && q.answer != ""
    ensures r.Some? ==> r.value == AnsweredQnA(qs)
  {
    var answered := AnsweredQnA(qs);
    if |answered| > 0 then Some(answered) else None
  }

  /** The record the company handler pushes for the page at `url`. */
  function CompanyRecord(url: string, c: RawCompany, jobPostings: seq<RawJob>, newsItems: seq<RawNews>)
    : (r: CompanyDetails)
    ensures WellFormed(r)
    ensures r.name == c.name && r.ycUrl == url && r.launches == [] && r.tags == c.tags
    ensures r.freeResponseQuestionAnswers.Some? <==> exists q :: q in c.freeResponseQuestionAnswers && q.answer != ""
    ensures r.freeResponseQuestionAnswers.Some? ==> r.freeResponseQuestionAnswers.value == AnsweredQnA(c.freeResponseQuestionAnswers)
    ensures |r.founders| == |c.founders| && |r.jobs| == |jobPostings| && |r.newsStories| == |newsItems|
    ensures forall i :: 0 <= i < |c.founders| ==> r.founders[i] == FounderRecord(c.founders[i])
    ensures forall i :: 0 <= i < |jobPostings| ==> r.jobs[i] == JobRecord(jobPostings[i])
    ensures forall i :: 0 <= i < |newsItems| ==> r.newsStories[i] == NewsRecord(newsItems[i])
    ensures && r.oneLiner == c.oneLiner && r.description == c.longDescription && r.foundingYear == c.yearFounded
            && r.teamSize == c.teamSize && r.website == c.website && r.ycdcStatus == c.ycdcStatus
    ensures r.socials == CompanySocials(c) && r.locatedAt == Location(c)
  {
    var founders := seq(|c.founders|, i requires 0 <= i < |c.founders| => FounderRecord(c.founders[i]));
    var jobs := seq(|jobPostings|, i requires 0 <= i < |jobPostings| => JobRecord(jobPostings[i]));
    var news := seq(|newsItems|, i requires 0 <= i < |newsItems| => NewsRecord(newsItems[i]));
    CompanyDetails(c.name, c.oneLiner, c.longDescription, c.yearFounded, c.teamSize, c.website, url,
                   c.ycdcStatus, Location(c), CompanySocials(c), founders, jobs, news, [], c.tags,
                   QnAField(c.freeResponseQuestionAnswers))
  }

  /** The record the launch handler builds from `props.post` and `props.latestLaunch`. */
  function LaunchRecord(post: RawPost, latestLaunch: bool): (r: LaunchPost)
    ensures r.createdAt == DateFormat.FormatDate(post.createdAt)
    ensures r.youtubeLink.Some? <==> exists i, j :: Youtube.IsMatch(post.body, i, j)
    ensures r.youtubeLink.Some? ==> Youtube.WatchPrefix < r.youtubeLink.value
    ensures r.createdBy == post.userName && r.url == post.url && r.isLatest == latestLaunch
    ensures r.youtubeLink == Youtube.ExtractLink(post.body)
    ensures r.title == post.title && r.tagline == post.tagline && r.totalVoteCounts == post.totalVoteCount
  {
    LaunchPost(post.title, post.tagline, post.userName, DateFormat.FormatDate(post.createdAt),
               post.totalVoteCount, Youtube.ExtractLink(post.body), post.url, latestLaunch)
  }
}
