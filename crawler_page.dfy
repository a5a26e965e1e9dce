/**
 * The YC crawler: the URL classifier, the two page handlers, the result store and the sequential
 * worklist driver that stands in for the crawling library run with a concurrency of one.
 */
module CrawlerPage {
  import opened Wrappers
  import opened Seqs
  import opened Interfaces
  import opened Payload
  import opened FieldMapping

  /** URLs that start with this literal are company pages. */
  const CompanyPrefix: string := "https://www.ycombinator.com/companies"

  datatype PageKind = CompanyPage | LaunchPage

  /** `currentUrl.startsWith(...)`: company page on the literal prefix, launch page otherwise. */
  function Classify(url: string): (k: PageKind)
    ensures k == CompanyPage <==> |CompanyPrefix| <= |url| && url[..|CompanyPrefix|] == CompanyPrefix
    ensures k == LaunchPage <==> !(CompanyPrefix <= url)
  {
    if CompanyPrefix <= url then CompanyPage else LaunchPage
  }

  /** What a handler call came to; `Failed` stands for an exception thrown before any effect. */
  datatype Outcome = Handled | NoPayload | Failed

  /** `launches.map(launch => launch.url)`. */
  function LaunchUrls(launches: seq<RawLaunchRef>): (r: seq<string>)
    ensures |r| == |launches| && forall i :: 0 <= i < |launches| ==> r[i] == launches[i].url
  {
    seq(|launches|, i requires 0 <= i < |launches| => launches[i].url)
  }

  /** The `ycUrl` of every record, in order. */
  function YcUrls(details: seq<CompanyDetails>): (r: seq<string>)
    ensures |r| == |details| && forall i :: 0 <= i < |details| ==> r[i] == details[i].ycUrl
  {
    seq(|details|, i requires 0 <= i < |details| => details[i].ycUrl)
  }

  /** `companyDetailsArray.find(company => company.name === name)`, as an index. */
  function FindByName(details: seq<CompanyDetails>, name: string): (r: Option<nat>)
    ensures r.Some? ==> r.value < |details| && details[r.value].name == name
    ensures r.Some? ==> forall j :: 0 <= j < r.value ==> details[j].name != name
    ensures r.None? <==> forall j :: 0 <= j < |details| ==> details[j].name != name
  {
    if details == [] then None
    else if details[0].name == name then Some(0)
    else
      match FindByName(details[1..], name)
      case None => None
      case Some(k) => Some(k + 1)
  }

  /** `k` is the index `find` stops at: the first record named `name`. */
  ghost predicate IsFirstNamed(details: seq<CompanyDetails>, name: string, k: int)
  {
    0 <= k < |details| && details[k].name == name && forall j :: 0 <= j < k ==> details[j].name != name
  }

  /** `details` with the launches of record `k` replaced. */
  function WithLaunches(details: seq<CompanyDetails>, k: nat, launches: seq<LaunchPost>): seq<CompanyDetails>
    requires k < |details|
  {
    details[k := details[k].(launches := launches)]
  }

  /** `filteredCompany.launches.push(post)` on the first record named `name`, if there is one. */
  function AttachLaunch(details: seq<CompanyDetails>, name: string, post: LaunchPost): (r: seq<CompanyDetails>)
    ensures |r| == |details|
    ensures (forall k :: 0 <= k < |details| ==> details[k].name != name) ==> r == details
  {
    match FindByName(details, name)
    case None => details
    case Some(k) => WithLaunches(details, k, details[k].launches + [post])
  }

  /** With a record named `name` at `k` and none before it, attaching appends to that record only. */
  lemma AttachLaunchAt(details: seq<CompanyDetails>, name: string, post: LaunchPost, k: nat)
    requires IsFirstNamed(details, name, k)
    ensures AttachLaunch(details, name, post) == WithLaunches(details, k, details[k].launches + [post])
  {
    var found := FindByName(details, name);
    assert found.Some? && found.value == k;
  }

  /**
   * Attaching never changes which pages the records came from, their names, nor what the company
   * handler ensured of them.
   */
  lemma AttachLaunchKeeps(details: seq<CompanyDetails>, name: string, post: LaunchPost)
    ensures YcUrls(AttachLaunch(details, name, post)) == YcUrls(details)
    ensures forall k :: 0 <= k < |details| ==> AttachLaunch(details, name, post)[k].name == details[k].name
    ensures (forall k :: 0 <= k < |details| ==> WellFormed(details[k])) ==>
              forall k :: 0 <= k < |details| ==> WellFormed(AttachLaunch(details, name, post)[k])
  {
    var r := AttachLaunch(details, name, post);
    assert forall k :: 0 <= k < |details| ==> r[k].ycUrl == details[k].ycUrl;
  }

  /** The launch posts of several launch pages, handled in order and attached by the same name. */
  function AttachAll(details: seq<CompanyDetails>, name: string, posts: seq<LaunchPost>): (r: seq<CompanyDetails>)
    ensures |r| == |details|
    ensures (forall k :: 0 <= k < |details| ==> details[k].name != name) ==> r == details
    decreases |posts|
  {
    if posts == [] then details
    else AttachAll(AttachLaunch(details, name, posts[0]), name, posts[1..])
  }

  /**
   * N launch pages matched to the same company leave exactly those N posts, in handling order,
   * at the end of its `launches`; every other record is untouched.
   */
  lemma {:induction false} AttachAllAppends(details: seq<CompanyDetails>, name: string, posts: seq<LaunchPost>, k: nat)
    requires IsFirstNamed(details, name, k)
    decreases |posts|
    ensures AttachAll(details, name, posts) == WithLaunches(details, k, details[k].launches + posts)
  {
    if posts == [] {
      assert details[k].launches + posts == details[k].launches;
    } else {
      var launches := details[k].launches + [posts[0]];
      var all := details[k].launches + posts;
      assert launches + posts[1..] == all;
      var once := WithLaunches(details, k, launches);
      AttachLaunchAt(details, name, posts[0], k);
      assert AttachAll(details, name, posts) == AttachAll(once, name, posts[1..]);
      LaunchesUpdateKeepsFirst(details, name, k, launches);
      LaunchesUpdateTwice(details, k, launches, all);
      AttachAllAppends(once, name, posts[1..], k);
      assert AttachAll(once, name, posts[1..]) == WithLaunches(once, k, all);
    }
  }

  /** Changing only the launches of record `k` leaves it the first record named `name`. */
  lemma LaunchesUpdateKeepsFirst(details: seq<CompanyDetails>, name: string, k: nat, launches: seq<LaunchPost>)
    requires IsFirstNamed(details, name, k)
    ensures IsFirstNamed(WithLaunches(details, k, launches), name, k)
  {
  }

  lemma LaunchesUpdateTwice(details: seq<CompanyDetails>, k: nat, first: seq<LaunchPost>, second: seq<LaunchPost>)
    requires k < |details|
    ensures |WithLaunches(details, k, first)| == |details|
    ensures WithLaunches(details, k, first)[k].launches == first
    ensures WithLaunches(WithLaunches(details, k, first), k, second) == WithLaunches(details, k, second)
  {
  }

  /** The page visited at `url` leaves a new record: a company URL whose page has a company payload. */
  predicate CreatesRecord(fetch: string -> Fetched, url: string)
  {
    && Classify(url) == CompanyPage
    && fetch(url).Document? && fetch(url).dataPage.Some? && fetch(url).dataPage.value.CompanyProps?
  }

  function RecordCreator(fetch: string -> Fetched): string -> bool
  {
    url => CreatesRecord(fetch, url)
  }

  /** The name of the record that visiting `url` creates. */
  function RecordName(fetch: string -> Fetched, url: string): string
    requires CreatesRecord(fetch, url)
  {
    fetch(url).dataPage.value.company.name
  }

  /**
   * The launch URLs the company handler queues: all of them as soon as `props.company` and
   * `props.launches` have been read, whether or not the record is built afterwards.
   */
  function QueuedLaunches(dataPage: Option<DataPage>): (r: seq<string>)
    ensures dataPage.Some? && (dataPage.value.CompanyProps? || dataPage.value.PartialCompanyProps?) ==>
              |r| == |dataPage.value.launches|
              && forall i :: 0 <= i < |r| ==> r[i] == dataPage.value.launches[i].url
    ensures dataPage.None? || dataPage.value.LaunchProps? || dataPage.value.Undecodable? ==> r == []
  {
    if dataPage.Some? && (dataPage.value.CompanyProps? || dataPage.value.PartialCompanyProps?)
    then LaunchUrls(dataPage.value.launches)
    else []
  }

  /** The result store after the page at `url` has been fetched and handled. */
  function StepStore(store: seq<CompanyDetails>, fetch: string -> Fetched, url: string): (r: seq<CompanyDetails>)
    ensures |r| == |store| + (if CreatesRecord(fetch, url) then 1 else 0)
  {
    match fetch(url)
    case FetchFailed => store
    case Document(dataPage) =>
      if Classify(url) == CompanyPage then
        if dataPage.Some? && dataPage.value.CompanyProps? then
          store + [CompanyRecord(url, dataPage.value.company, dataPage.value.jobPostings, dataPage.value.newsItems)]
        else store
      else if dataPage.Some? && dataPage.value.LaunchProps? then
        AttachLaunch(store, dataPage.value.post.companyName, LaunchRecord(dataPage.value.post, dataPage.value.latestLaunch))
      else store
  }

  /** The request queue after the page at `url` has been fetched and handled. */
  function StepQueue(queue: seq<string>, fetch: string -> Fetched, url: string): (r: seq<string>)
    ensures queue <= r
    ensures |r| > |queue| ==> Classify(url) == CompanyPage && fetch(url).Document?
  {
    match fetch(url)
    case FetchFailed => queue
    case Document(dataPage) => if Classify(url) == CompanyPage then queue + QueuedLaunches(dataPage) else queue
  }

  /** The result store after the pages of `trace` have been handled in order. */
  function ReplayStore(store: seq<CompanyDetails>, fetch: string -> Fetched, trace: seq<string>): (r: seq<CompanyDetails>)
    ensures |store| <= |r| <= |store| + |trace|
    decreases |trace|
  {
    if trace == [] then store
    else StepStore(ReplayStore(store, fetch, trace[..|trace| - 1]), fetch, trace[|trace| - 1])
  }

  /** The request queue after the pages of `trace` have been handled in order. */
  function ReplayQueue(queue: seq<string>, fetch: string -> Fetched, trace: seq<string>): (r: seq<string>)
    ensures queue <= r
    ensures |r| > |queue| ==> exists k :: 0 <= k < |trace| && Classify(trace[k]) == CompanyPage
    decreases |trace|
  {
    if trace == [] then queue
    else StepQueue(ReplayQueue(queue, fetch, trace[..|trace| - 1]), fetch, trace[|trace| - 1])
  }

  /** One handled page adds its URL to the records' URLs exactly when it creates a record. */
  lemma StepUrls(store: seq<CompanyDetails>, fetch: string -> Fetched, url: string)
    ensures YcUrls(StepStore(store, fetch, url)) == YcUrls(store) + (if CreatesRecord(fetch, url) then [url] else [])
  {
    var fetched := fetch(url);
    if fetched.Document? && Classify(url) == LaunchPage && fetched.dataPage.Some? && fetched.dataPage.value.LaunchProps? {
      var post := fetched.dataPage.value.post;
      AttachLaunchKeeps(store, post.companyName, LaunchRecord(post, fetched.dataPage.value.latestLaunch));
    }
  }

  /** A handled page never removes a record, nor renames or moves one. */
  lemma StepKeepsNames(store: seq<CompanyDetails>, fetch: string -> Fetched, url: string)
    ensures |store| <= |StepStore(store, fetch, url)|
    ensures forall k :: 0 <= k < |store| ==> StepStore(store, fetch, url)[k].name == store[k].name
  {
    var fetched := fetch(url);
    if fetched.Document? && Classify(url) == LaunchPage && fetched.dataPage.Some? && fetched.dataPage.value.LaunchProps? {
      var post := fetched.dataPage.value.post;
      AttachLaunchKeeps(store, post.companyName, LaunchRecord(post, fetched.dataPage.value.latestLaunch));
    }
  }

  /** The records' URLs after a run are the URLs of the record-creating visits, in visit order. */
  lemma {:induction false} ReplayUrls(store: seq<CompanyDetails>, fetch: string -> Fetched, trace: seq<string>)
    ensures YcUrls(ReplayStore(store, fetch, trace)) == YcUrls(store) + Filter(RecordCreator(fetch), trace)
    decreases |trace|
  {
    if trace != [] {
      var prev, url := trace[..|trace| - 1], trace[|trace| - 1];
      ReplayUrls(store, fetch, prev);
      StepUrls(ReplayStore(store, fetch, prev), fetch, url);
      StepFilter(fetch, prev, url);
      assert prev + [url] == trace;
    }
  }

  /** One more visited URL adds itself to the filtered trace exactly when it creates a record. */
  lemma StepFilter(fetch: string -> Fetched, trace: seq<string>, url: string)
    ensures Filter(RecordCreator(fetch), trace + [url])
            == Filter(RecordCreator(fetch), trace) + (if CreatesRecord(fetch, url) then [url] else [])
  {
    FilterConcat(RecordCreator(fetch), trace, [url]);
    assert RecordCreator(fetch)(url) == CreatesRecord(fetch, url);
  }

  /** Once a company page has created its record, a record of that name stays in the store. */
  lemma {:induction false} RecordPersists(store: seq<CompanyDetails>, fetch: string -> Fetched, trace: seq<string>, i: nat)
    requires i < |trace| && CreatesRecord(fetch, trace[i])
    ensures FindByName(ReplayStore(store, fetch, trace), RecordName(fetch, trace[i])).Some?
    decreases |trace|
  {
    var prev, url := trace[..|trace| - 1], trace[|trace| - 1];
    var before := ReplayStore(store, fetch, prev);
    var name := RecordName(fetch, trace[i]);
    if i == |trace| - 1 {
      var after := StepStore(before, fetch, url);
      assert after[|before|].name == name;
    } else {
      assert prev[i] == trace[i];
      RecordPersists(store, fetch, prev, i);
      var k := FindByName(before, name).value;
      StepKeepsNames(before, fetch, url);
      assert StepStore(before, fetch, url)[k].name == name;
    }
  }

  /**
   * The cross-page correlation: a launch page handled after a company page, whose post names that
   * company, appends its post to the first record of that name, and changes nothing else.
   */
  lemma LaunchAttachesAfterCompany(store: seq<CompanyDetails>, fetch: string -> Fetched, trace: seq<string>, i: nat, j: nat)
    requires i < j < |trace| && CreatesRecord(fetch, trace[i])
    requires Classify(trace[j]) == LaunchPage
    requires fetch(trace[j]).Document? && fetch(trace[j]).dataPage.Some? && fetch(trace[j]).dataPage.value.LaunchProps?
    requires fetch(trace[j]).dataPage.value.post.companyName == RecordName(fetch, trace[i])
    ensures var before := ReplayStore(store, fetch, trace[..j]);
            var data := fetch(trace[j]).dataPage.value;
            exists k :: && IsFirstNamed(before, RecordName(fetch, trace[i]), k)
                        && ReplayStore(store, fetch, trace[..j + 1])
                           == WithLaunches(before, k, before[k].launches + [LaunchRecord(data.post, data.latestLaunch)])
  {
    var before := ReplayStore(store, fetch, trace[..j]);
    var data := fetch(trace[j]).dataPage.value;
    var name := RecordName(fetch, trace[i]);
    assert trace[..j][i] == trace[i];
    RecordPersists(store, fetch, trace[..j], i);
    var k := FindByName(before, name).value;
    assert IsFirstNamed(before, name, k);
    assert trace[..j + 1][..j] == trace[..j];
    AttachLaunchAt(before, name, LaunchRecord(data.post, data.latestLaunch), k);
  }

  /** A run's visits only ever extend the queue: the queue after a prefix of the visits is a prefix of the final one. */
  lemma {:induction false} ReplayQueuePrefix(queue: seq<string>, fetch: string -> Fetched, trace: seq<string>, n: nat)
    requires n <= |trace|
    ensures ReplayQueue(queue, fetch, trace[..n]) <= ReplayQueue(queue, fetch, trace)
    decreases |trace|
  {
    if n < |trace| {
      var prev := trace[..|trace| - 1];
      assert trace[..n] == prev[..n];
      ReplayQueuePrefix(queue, fetch, prev, n);
      var a, b := ReplayQueue(queue, fetch, prev[..n]), ReplayQueue(queue, fetch, prev);
      var c := ReplayQueue(queue, fetch, trace);
      assert b <= c;
      assert c[..|a|] == b[..|a|];
    } else {
      assert trace[..n] == trace;
    }
  }

  /**
   * What a crawl has still to take after the visits of `trace`, having started from the request
   * list `list` and the queue `queue`: the list, then the queue as those visits have grown it.
   */
  function Pending(list: seq<string>, queue: seq<string>, fetch: string -> Fetched, trace: seq<string>): (r: seq<string>)
    ensures |r| >= |list| && r[..|list|] == list
  {
    list + ReplayQueue(queue, fetch, trace)
  }

  /**
   * Visit `k` of `trace`, in a crawl that had taken `done` requests before `trace` began, is the
   * next pending request at that moment: the list first, then the queue, first in first out.
   */
  ghost predicate TakenInTurn(list: seq<string>, queue: seq<string>, fetch: string -> Fetched, done: nat,
                              trace: seq<string>, k: nat)
    requires k < |trace|
  {
    var pending := Pending(list, queue, fetch, trace[..k]);
    done + k < |pending| && trace[k] == pending[done + k]
  }

  /** Every visit of `trace` was taken in turn: the visits are determined by the pages fetched. */
  ghost predicate InTurn(list: seq<string>, queue: seq<string>, fetch: string -> Fetched, done: nat, trace: seq<string>)
  {
    forall k :: 0 <= k < |trace| ==> TakenInTurn(list, queue, fetch, done, trace, k)
  }

  /** Taking the next pending request extends a run taken in turn. */
  lemma InTurnSnoc(list: seq<string>, queue: seq<string>, fetch: string -> Fetched, done: nat, trace: seq<string>, url: string)
    requires InTurn(list, queue, fetch, done, trace)
    requires done + |trace| < |Pending(list, queue, fetch, trace)|
    requires url == Pending(list, queue, fetch, trace)[done + |trace|]
    ensures InTurn(list, queue, fetch, done, trace + [url])
  {
    var next := trace + [url];
    forall k | 0 <= k < |next|
      ensures TakenInTurn(list, queue, fetch, done, next, k)
    {
      assert next[..k] == trace[..k];
      if k < |trace| {
        assert TakenInTurn(list, queue, fetch, done, trace, k);
      }
    }
  }

  /**
   * In a crawl from the seeds that ran until nothing was pending, the `p`-th queued URL, queued by
   * visit `i`, is visited later, at position `|list| + p`.
   */
  lemma QueuedVisitedLater(list: seq<string>, fetch: string -> Fetched, trace: seq<string>, i: nat, p: nat)
    requires InTurn(list, [], fetch, 0, trace) && trace == list + ReplayQueue([], fetch, trace)
    requires i < |trace|
    requires |ReplayQueue([], fetch, trace[..i])| <= p < |ReplayQueue([], fetch, trace[..i + 1])|
    ensures i < |list| + p < |trace|
    ensures trace[|list| + p] == ReplayQueue([], fetch, trace[..i + 1])[p]
  {
    assert TakenInTurn(list, [], fetch, 0, trace, i);
    ReplayQueuePrefix([], fetch, trace, i + 1);
  }

  /**
   * In such a crawl, every launch URL of a company page that created a record is visited after that
   * page, so `LaunchAttachesAfterCompany` applies to it.
   */
  lemma LaunchVisitedAfterCompany(list: seq<string>, fetch: string -> Fetched, trace: seq<string>, i: nat, m: nat)
    requires InTurn(list, [], fetch, 0, trace) && trace == list + ReplayQueue([], fetch, trace)
    requires i < |trace| && CreatesRecord(fetch, trace[i])
    requires m < |fetch(trace[i]).dataPage.value.launches|
    ensures exists j :: i < j < |trace| && trace[j] == fetch(trace[i]).dataPage.value.launches[m].url
  {
    var p := QueuedByCompany(fetch, trace, i, m);
    QueuedVisitedLater(list, fetch, trace, i, p);
    assert trace[|list| + p] == fetch(trace[i]).dataPage.value.launches[m].url;
  }

  /** The `m`-th launch URL of a record-creating visit `i` is queued by it, at position `p`. */
  lemma QueuedByCompany(fetch: string -> Fetched, trace: seq<string>, i: nat, m: nat) returns (p: nat)
    requires i < |trace| && CreatesRecord(fetch, trace[i])
    requires m < |fetch(trace[i]).dataPage.value.launches|
    ensures |ReplayQueue([], fetch, trace[..i])| <= p < |ReplayQueue([], fetch, trace[..i + 1])|
    ensures ReplayQueue([], fetch, trace[..i + 1])[p] == fetch(trace[i]).dataPage.value.launches[m].url
  {
    var q := ReplayQueue([], fetch, trace[..i]);
    ReplayQueueStep([], fetch, trace, i);
    assert ReplayQueue([], fetch, trace[..i + 1]) == q + LaunchUrls(fetch(trace[i]).dataPage.value.launches);
    p := |q| + m;
  }

  /** The queue after visit `i` is the queue before it, grown by that visit. */
  lemma ReplayQueueStep(queue: seq<string>, fetch: string -> Fetched, trace: seq<string>, i: nat)
    requires i < |trace|
    ensures ReplayQueue(queue, fetch, trace[..i + 1]) == StepQueue(ReplayQueue(queue, fetch, trace[..i]), fetch, trace[i])
  {
    assert trace[..i + 1][..i] == trace[..i];
  }

  /** `after` is `before` with records appended and some launches appended to existing records. */
  ghost predicate LaunchesGrown(before: seq<CompanyDetails>, after: seq<CompanyDetails>)
  {
    && |before| <= |after|
    && forall k :: 0 <= k < |before| ==>
         before[k].launches <= after[k].launches && after[k].(launches := before[k].launches) == before[k]
  }

  /** One handled page only appends: records at the end, and launch posts at the end of one record. */
  lemma StepLaunchesGrow(store: seq<CompanyDetails>, fetch: string -> Fetched, url: string)
    ensures LaunchesGrown(store, StepStore(store, fetch, url))
  {
  }

  lemma GrownTransitive(a: seq<CompanyDetails>, b: seq<CompanyDetails>, c: seq<CompanyDetails>)
    requires LaunchesGrown(a, b) && LaunchesGrown(b, c)
    ensures LaunchesGrown(a, c)
  {
    forall k | 0 <= k < |a|
      ensures a[k].launches <= c[k].launches && c[k].(launches := a[k].launches) == a[k]
    {
      assert c[k].launches[..|b[k].launches|] == b[k].launches;
      assert b[k].launches[..|a[k].launches|] == a[k].launches;
    }
  }

  /** A whole run only appends: no record and no launch post is ever removed or overwritten. */
  lemma {:induction false} ReplayLaunchesGrow(store: seq<CompanyDetails>, fetch: string -> Fetched, trace: seq<string>)
    ensures LaunchesGrown(store, ReplayStore(store, fetch, trace))
    decreases |trace|
  {
    if trace != [] {
      var prev := trace[..|trace| - 1];
      ReplayLaunchesGrow(store, fetch, prev);
      StepLaunchesGrow(ReplayStore(store, fetch, prev), fetch, trace[|trace| - 1]);
      GrownTransitive(store, ReplayStore(store, fetch, prev), ReplayStore(store, fetch, trace));
    }
  }

  /** When no visit from position `n` on creates a record, a run from an empty store has at most `n` records. */
  lemma RecordsAtMostSeeds(fetch: string -> Fetched, trace: seq<string>, n: nat)
    requires forall j :: n <= j < |trace| ==> !CreatesRecord(fetch, trace[j])
    ensures |ReplayStore([], fetch, trace)| <= n
  {
    ReplayUrls([], fetch, trace);
    if n < |trace| {
      assert trace[..n] + trace[n..] == trace;
      FilterConcat(RecordCreator(fetch), trace[..n], trace[n..]);
      assert forall i :: 0 <= i < |trace[n..]| ==> !RecordCreator(fetch)(trace[n..][i]) by {
        forall i | 0 <= i < |trace[n..]| ensures !RecordCreator(fetch)(trace[n..][i]) {
          assert trace[n..][i] == trace[n + i];
        }
      }
      FilterNone(RecordCreator(fetch), trace[n..]);
    }
  }

  /**
   * Without that condition the bound fails: one seed whose page lists a company page among its
   * launches gives two records from one seed, in a crawl taken in turn that ran until nothing was pending.
   */
  lemma QueuedCompanyPage(c: RawCompany)
    ensures var seed, other := CompanyPrefix + "/a", CompanyPrefix + "/b";
            var fetch := (u: string) => Document(Some(CompanyProps(c, if u == seed then [RawLaunchRef(other)] else [], [], [])));
            var trace := [seed, other];
            && InTurn([seed], [], fetch, 0, trace) && trace == [seed] + ReplayQueue([], fetch, trace)
            && |ReplayStore([], fetch, trace)| == 2
  {
    var seed, other := CompanyPrefix + "/a", CompanyPrefix + "/b";
    var fetch := (u: string) => Document(Some(CompanyProps(c, if u == seed then [RawLaunchRef(other)] else [], [], [])));
    var trace := [seed, other];
    assert seed != other by { assert seed[|CompanyPrefix| + 1] != other[|CompanyPrefix| + 1]; }
    assert Classify(seed) == CompanyPage && Classify(other) == CompanyPage;
    assert trace[..1] == [seed] && trace[..1][..0] == [] && trace[..0] == [];
    assert ReplayQueue([], fetch, trace[..0]) == [];
    assert ReplayQueue([], fetch, trace[..1]) == [other];
    assert ReplayQueue([], fetch, trace) == [other];
    assert TakenInTurn([seed], [], fetch, 0, trace, 0);
    assert TakenInTurn([seed], [], fetch, 0, trace, 1);
  }

  /** Seeds first, then the queue: what has been taken is a prefix of the list followed by the queue. */
  lemma VisitedIsPrefix(list: seq<string>, queue: seq<string>, listCursor: nat, queueCursor: nat, visited: seq<string>)
    requires listCursor <= |list| && queueCursor <= |queue| && (queueCursor > 0 ==> listCursor == |list|)
    requires visited == list[..listCursor] + queue[..queueCursor]
    ensures visited <= list + queue
  {
    if queueCursor > 0 {
      assert visited == (list + queue)[..|list| + queueCursor];
    } else {
      assert visited == (list + queue)[..listCursor];
    }
  }

  /**
   * The crawler's state: the seed request list with its cursor, the request queue with its cursor,
   * and the result store (`companyDetailsArray`). `visited` records the URLs taken, in order.
   */
  class Crawler {
    const requestList: seq<string>
    var listCursor: nat
    var requestQueue: seq<string>
    var queueCursor: nat
    var companyDetailsArray: seq<CompanyDetails>
    ghost var visited: seq<string>

    /**
     * The drain policy: every seed is taken before any queued request, and each source is taken
     * first-in first-out. Every stored record keeps the `|| undefined` and question-filter laws.
     */
    ghost predicate Valid()
      reads this
    {
      && listCursor <= |requestList| && queueCursor <= |requestQueue|
      && (queueCursor > 0 ==> listCursor == |requestList|)
      && visited == requestList[..listCursor] + requestQueue[..queueCursor]
      && forall k :: 0 <= k < |companyDetailsArray| ==> WellFormed(companyDetailsArray[k])
    }

    constructor (seeds: seq<string>)
      ensures Valid()
      ensures requestList == seeds && requestQueue == [] && companyDetailsArray == []
      ensures listCursor == 0 && queueCursor == 0 && visited == []
    {
      requestList := seeds;
      listCursor := 0;
      requestQueue := [];
      queueCursor := 0;
      companyDetailsArray := [];
      visited := [];
    }

    predicate HasWork()
      reads this
    {
      listCursor < |requestList| || queueCursor < |requestQueue|
    }

    /** `requestQueue.addRequest({ url })`: no de-duplication, the URL goes to the back. */
    method AddRequest(url: string)
      requires Valid()
      modifies this
      ensures Valid()
      ensures requestQueue == old(requestQueue) + [url]
      ensures listCursor == old(listCursor) && queueCursor == old(queueCursor)
      ensures companyDetailsArray == old(companyDetailsArray) && visited == old(visited)
    {
      assert (requestQueue + [url])[..queueCursor] == requestQueue[..queueCursor];
      requestQueue := requestQueue + [url];
    }

    /** The next request: from the seed list while it lasts, then from the queue. */
    method NextRequest() returns (url: string)
      requires Valid() && HasWork()
      modifies this
      ensures Valid()
      ensures visited == old(visited) + [url]
      ensures old(listCursor) < |requestList| ==>
                url == requestList[old(listCursor)] && listCursor == old(listCursor) + 1 && queueCursor == old(queueCursor)
      ensures old(listCursor) == |requestList| ==>
                url == requestQueue[old(queueCursor)] && queueCursor == old(queueCursor) + 1 && listCursor == old(listCursor)
      ensures requestQueue == old(requestQueue) && companyDetailsArray == old(companyDetailsArray)
      ensures |old(visited)| < |requestList| + |requestQueue| && url == (requestList + requestQueue)[|old(visited)|]
    {
      if listCursor < |requestList| {
        url := requestList[listCursor];
        assert requestList[..listCursor + 1] == requestList[..listCursor] + [url];
        listCursor := listCursor + 1;
      } else {
        url := requestQueue[queueCursor];
        assert requestQueue[..queueCursor + 1] == requestQueue[..queueCursor] + [url];
        queueCursor := queueCursor + 1;
      }
      visited := visited + [url];
    }

    /**
     * `handleCompanyPage`: with `props.company` and `props.launches` readable, enqueue every launch
     * URL in order; then, if the rest of the company payload is there, build and push one record for
     * `url`. A payload that lacks it throws after the queueing; with no payload nothing happens.
     */
    method HandleCompanyPage(url: string, dataPage: Option<DataPage>) returns (outcome: Outcome)
      requires Valid()
      modifies this
      ensures Valid()
      ensures listCursor == old(listCursor) && queueCursor == old(queueCursor) && visited == old(visited)
      ensures requestQueue == old(requestQueue) + QueuedLaunches(dataPage)
      ensures dataPage.None? ==> outcome == NoPayload
      ensures dataPage.Some? && dataPage.value.CompanyProps? ==>
                && outcome == Handled
                && companyDetailsArray == old(companyDetailsArray) + [CompanyRecord(url, dataPage.value.company,
                                            dataPage.value.jobPostings, dataPage.value.newsItems)]
      ensures dataPage.Some? && !dataPage.value.CompanyProps? ==> outcome == Failed
      ensures outcome != Handled ==> companyDetailsArray == old(companyDetailsArray)
    {
      if dataPage.None? {
        return NoPayload;
      }
      var data := dataPage.value;
      if !(data.CompanyProps? || data.PartialCompanyProps?) {
        return Failed;
      }
      var launches := data.launches;
      for i := 0 to |launches|
        invariant Valid()
        invariant requestQueue == old(requestQueue) + LaunchUrls(launches[..i])
        invariant listCursor == old(listCursor) && queueCursor == old(queueCursor) && visited == old(visited)
        invariant companyDetailsArray == old(companyDetailsArray)
      {
        AddRequest(launches[i].url);
        assert LaunchUrls(launches[..i + 1]) == LaunchUrls(launches[..i]) + [launches[i].url];
      }
      assert launches[..|launches|] == launches;
      if data.PartialCompanyProps? {
        return Failed;
      }
      var details := CompanyRecord(url, data.company, data.jobPostings, data.newsItems);
      companyDetailsArray := companyDetailsArray + [details];
      outcome := Handled;
    }

    /**
     * `handleLaunchPost`: with a launch payload, build the post and append it to the first record
     * whose name is the post's company name; the queue is never touched and no record is added.
     */
    method HandleLaunchPost(dataPage: Option<DataPage>) returns (outcome: Outcome)
      requires Valid()
      modifies this
      ensures Valid()
      ensures listCursor == old(listCursor) && queueCursor == old(queueCursor) && visited == old(visited)
      ensures requestQueue == old(requestQueue)
      ensures |companyDetailsArray| == |old(companyDetailsArray)|
      ensures YcUrls(companyDetailsArray) == YcUrls(old(companyDetailsArray))
      ensures dataPage.None? ==> outcome == NoPayload
      ensures dataPage.Some? && dataPage.value.LaunchProps? ==> outcome == Handled
      ensures dataPage.Some? && !dataPage.value.LaunchProps? ==> outcome == Failed
      ensures outcome == Handled ==>
                companyDetailsArray == AttachLaunch(old(companyDetailsArray), dataPage.value.post.companyName,
                                                    LaunchRecord(dataPage.value.post, dataPage.value.latestLaunch))
      ensures outcome != Handled ==> companyDetailsArray == old(companyDetailsArray)
    {
      if dataPage.None? {
        return NoPayload;
      }
      var data := dataPage.value;
      if !data.LaunchProps? {
        return Failed;
      }
      var launchPost := LaunchRecord(data.post, data.latestLaunch);
      AttachLaunchKeeps(companyDetailsArray, data.post.companyName, launchPost);
      companyDetailsArray := AttachLaunch(companyDetailsArray, data.post.companyName, launchPost);
      outcome := Handled;
    }

    /**
     * `requestHandler`: dispatch on the URL's prefix. A company URL gets the company handler's
     * effects, every other URL the launch handler's.
     */
    method RequestHandler(url: string, dataPage: Option<DataPage>) returns (outcome: Outcome)
      requires Valid()
      modifies this
      ensures Valid()
      ensures listCursor == old(listCursor) && queueCursor == old(queueCursor) && visited == old(visited)
      ensures Classify(url) == CompanyPage ==>
                && requestQueue == old(requestQueue) + QueuedLaunches(dataPage)
                && companyDetailsArray
                   == if dataPage.Some? && dataPage.value.CompanyProps?
                      then old(companyDetailsArray) + [CompanyRecord(url, dataPage.value.company,
                                                         dataPage.value.jobPostings, dataPage.value.newsItems)]
                      else old(companyDetailsArray)
      ensures Classify(url) == LaunchPage ==>
                && requestQueue == old(requestQueue)
                && companyDetailsArray
                   == if dataPage.Some? && dataPage.value.LaunchProps?
                      then AttachLaunch(old(companyDetailsArray), dataPage.value.post.companyName,
                                        LaunchRecord(dataPage.value.post, dataPage.value.latestLaunch))
                      else old(companyDetailsArray)
    {
      if Classify(url) == CompanyPage {
        outcome := HandleCompanyPage(url, dataPage);
      } else {
        outcome := HandleLaunchPost(dataPage);
      }
    }

    /** One turn of the driver: take the next request, fetch it and, on success, handle the page. */
    method Step(fetch: string -> Fetched) returns (url: string)
      requires Valid() && HasWork()
      modifies this
      ensures Valid()
      ensures visited == old(visited) + [url]
      ensures old(listCursor) < |requestList| ==> url == requestList[old(listCursor)]
      ensures old(listCursor) == |requestList| ==> url == old(requestQueue)[old(queueCursor)]
      ensures companyDetailsArray == StepStore(old(companyDetailsArray), fetch, url)
      ensures requestQueue == StepQueue(old(requestQueue), fetch, url)
      ensures |old(visited)| < |requestList| + |old(requestQueue)|
              && url == (requestList + old(requestQueue))[|old(visited)|]
    {
      url := NextRequest();
      var fetched := fetch(url);
      if fetched.Document? {
        var _ := RequestHandler(url, fetched.dataPage);
      }
    }

    /**
     * `crawler.run()` with a concurrency of one: take a request, fetch it, hand the page to the
     * handler and go on, until both sources are empty or `budget` requests have been taken.
     * A failed fetch abandons the request. The store and the queue end as the visits, replayed in
     * order, leave them; the records' URLs are those of the record-creating visits.
     */
    method Run(fetch: string -> Fetched, budget: nat) returns (processed: nat)
      requires Valid()
      modifies this
      ensures Valid()
      ensures processed <= budget
      ensures processed < budget ==> !HasWork() && visited == requestList + requestQueue
      ensures |visited| == |old(visited)| + processed && visited[..|old(visited)|] == old(visited)
      ensures companyDetailsArray == ReplayStore(old(companyDetailsArray), fetch, visited[|old(visited)|..])
      ensures requestQueue == ReplayQueue(old(requestQueue), fetch, visited[|old(visited)|..])
      ensures YcUrls(companyDetailsArray)
              == YcUrls(old(companyDetailsArray)) + Filter(RecordCreator(fetch), visited[|old(visited)|..])
      ensures InTurn(requestList, old(requestQueue), fetch, |old(visited)|, visited[|old(visited)|..])
      ensures visited <= requestList + requestQueue
    {
      processed := 0;
      ghost var trace: seq<string> := [];
      while processed < budget && HasWork()
        invariant Valid()
        invariant processed <= budget
        invariant visited == old(visited) + trace && |trace| == processed
        invariant companyDetailsArray == ReplayStore(old(companyDetailsArray), fetch, trace)
        invariant requestQueue == ReplayQueue(old(requestQueue), fetch, trace)
        invariant InTurn(requestList, old(requestQueue), fetch, |old(visited)|, trace)
        decreases budget - processed
      {
        assert Pending(requestList, old(requestQueue), fetch, trace) == requestList + requestQueue;
        ghost var taken := |visited|;
        var url := Step(fetch);
        assert taken == |old(visited)| + |trace|;
        InTurnSnoc(requestList, old(requestQueue), fetch, |old(visited)|, trace, url);
        assert (trace + [url])[..|trace|] == trace;
        trace := trace + [url];
        processed := processed + 1;
      }
      assert visited[|old(visited)|..] == trace;
      ReplayUrls(old(companyDetailsArray), fetch, trace);
      if processed < budget {
        assert requestList[..listCursor] == requestList && requestQueue[..queueCursor] == requestQueue;
      }
      VisitedIsPrefix(requestList, requestQueue, listCursor, queueCursor, visited);
    }
  }

  /** The seed URLs, `companies.map(company => company.ycUrl)`. */
  function SeedUrls(companies: seq<Company>): (r: seq<string>)
    ensures |r| == |companies| && forall i :: 0 <= i < |companies| ==> r[i] == companies[i].ycUrl
  {
    seq(|companies|, i requires 0 <= i < |companies| => companies[i].ycUrl)
  }

  /**
   * `startCrawling`: a fresh crawler over the seed URLs, run to the end. `visited` is the order in
   * which requests were taken: the seeds first, in seed order. The records are what replaying the
   * visits builds; stopping before the budget means every queued launch URL was visited.
   */
  method StartCrawling(companies: seq<Company>, fetch: string -> Fetched, budget: nat)
    returns (details: seq<CompanyDetails>, ghost visited: seq<string>)
    ensures details == ReplayStore([], fetch, visited)
    ensures YcUrls(details) == Filter(RecordCreator(fetch), visited)
    ensures |details| <= |visited| <= budget
    ensures |companies| <= budget ==> |companies| <= |visited| && visited[..|companies|] == SeedUrls(companies)
    ensures |visited| < budget ==> visited == SeedUrls(companies) + ReplayQueue([], fetch, visited)
    ensures forall k :: 0 <= k < |details| ==> WellFormed(details[k])
    ensures InTurn(SeedUrls(companies), [], fetch, 0, visited)
    ensures visited <= SeedUrls(companies) + ReplayQueue([], fetch, visited)
  {
    var crawler := new Crawler(SeedUrls(companies));
    var processed := crawler.Run(fetch, budget);
    details := crawler.companyDetailsArray;
    visited := crawler.visited;
    assert visited[0..] == visited;
  }
}
