/**
 * The records the crawler produces (the TypeScript interfaces of the crawler).
 * A field that the code may leave `undefined` is an `Option`; JSON output omits it when `None`.
 */
module Interfaces {
  import opened Wrappers

  /** One row of the seed file: a company's name and its YC profile URL. */
  datatype Company = Company(companyName: string, ycUrl: string)

  datatype QnA = QnA(question: string, answer: string)

  datatype LaunchPost = LaunchPost(
    title: string,
    tagline: string,
    createdBy: string,
    createdAt: string,
    totalVoteCounts: int,
    youtubeLink: Option<string>,
    url: string,
    isLatest: bool)

  datatype Socials = Socials(
    linkedin: Option<string>,
    facebook: Option<string>,
    crunchBase: Option<string>,
    github: Option<string>,
    twitter: Option<string>)

  datatype Founder = Founder(
    name: string,
    role: Option<string>,
    isActive: Option<bool>,
    bio: string,
    socials: Socials)

  datatype JobPosting = JobPosting(
    title: string,
    location: string,
    jobType: string,
    role: string,
    roleSpecificType: Option<string>,
    salaryRange: string,
    equityRange: string,
    minExperience: string,
    applyUrl: string)

  datatype NewsStory = NewsStory(title: string, url: string, date: string)

  /** The interface declares these as strings, but the code stores `x || undefined`. */
  datatype LocatedAt = LocatedAt(location: Option<string>, city: Option<string>, country: Option<string>)

  datatype CompanyDetails = CompanyDetails(
    name: string,
    oneLiner: string,
    description: string,
    foundingYear: int,
    teamSize: int,
    website: string,
    ycUrl: string,
    ycdcStatus: string,
    locatedAt: LocatedAt,
    socials: Socials,
    founders: seq<Founder>,
    jobs: seq<JobPosting>,
    newsStories: seq<NewsStory>,
    launches: seq<LaunchPost>,
    tags: seq<string>,
    freeResponseQuestionAnswers: Option<seq<QnA>>)
}
