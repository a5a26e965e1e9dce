/**
 * The already-decoded `data-page` payload of a fetched page, and the fetcher's answer.
 * Each field is named after the JSON key it is read from (`long_description` is `longDescription`).
 * A JSON value that may be missing, `null` or empty and is mapped with `|| undefined` is an `Option`.
 */
module Payload {
  import opened Wrappers
  import opened Interfaces

  datatype RawFounder = RawFounder(
    fullName: string,
    title: Option<string>,
    isActive: Option<bool>,
    founderBio: string,
    linkedinUrl: Option<string>,
    twitterUrl: Option<string>,
    facebookUrl: Option<string>,
    githubUrl: Option<string>)

  datatype RawCompany = RawCompany(
    name: string,
    oneLiner: string,
    longDescription: string,
    yearFounded: int,
    teamSize: int,
    website: string,
    ycdcStatus: string,
    location: Option<string>,
    city: Option<string>,
    country: Option<string>,
    linkedinUrl: Option<string>,
    fbUrl: Option<string>,
    cbUrl: Option<string>,
    githubUrl: Option<string>,
    twitterUrl: Option<string>,
    founders: seq<RawFounder>,
    tags: seq<string>,
    freeResponseQuestionAnswers: seq<QnA>)

  datatype RawJob = RawJob(
    title: string,
    location: string,
    jobType: string,
    role: string,
    roleSpecificType: Option<string>,
    salaryRange: string,
    equityRange: string,
    minExperience: string,
    applyUrl: string)

  datatype RawNews = RawNews(title: string, url: string, date: string)

  /** An entry of `props.launches` on a company page; only its `url` is read. */
  datatype RawLaunchRef = RawLaunchRef(url: string)

  /**
   * The calendar fields of `new Date(post.created_at)` in the local time zone, as
   * `getDate()`, `getMonth()` (0-based), `getFullYear()`, `getHours()` and `getMinutes()` return them.
   */
  datatype DateParts = DateParts(day: nat, month: nat, year: nat, hours: nat, minutes: nat)

  datatype RawPost = RawPost(
    title: string,
    tagline: string,
    userName: string,
    createdAt: DateParts,
    totalVoteCount: int,
    body: string,
    url: string,
    companyName: string)

  /**
   * The decoded `data-page` attribute: its `props` object in one of the two shapes the handlers read.
   * `PartialCompanyProps` has `company` and `launches` but lacks a field the company handler reads only
   * after queueing the launches (`founders`, `jobPostings`, `newsItems` or the question answers).
   * `Undecodable` stands for every payload on which a handler throws before any effect: `JSON.parse`
   * fails, or `props`, `props.company` or `props.launches` is missing on a company page, or the launch
   * handler throws anywhere before its push (`props.post`, `post.user`, `post.body` or `post.company`
   * missing, say).
   */
  datatype DataPage =
    | CompanyProps(company: RawCompany, launches: seq<RawLaunchRef>, jobPostings: seq<RawJob>, newsItems: seq<RawNews>)
    | PartialCompanyProps(launches: seq<RawLaunchRef>)
    | LaunchProps(post: RawPost, latestLaunch: bool)
    | Undecodable

  /** The page fetcher's answer for a URL: a failure, or a page whose `data-page` attribute may be absent. */
  datatype Fetched = FetchFailed | Document(dataPage: Option<DataPage>)
}
