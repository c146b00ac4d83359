/**
 * The web-search tool of backend/app/mcp/tools_functions.py and of its older
 * twin backend/app/mcp/functions.py: keyword normalisation, the search
 * query, the domain list chosen by category, the result items handed back
 * (at most five) and the archive merge that the background thread runs,
 * which appends only results whose link the archive does not hold yet.
 * The search client, the domain extraction of a URL and the summarising
 * language model are parameters; the archive file is a field.
 */
module WebSearch {
  import opened Wrappers
  import opened Text

  /** The two copies of the search code: tools_functions.py and the older functions.py. */
  datatype Copy = Current | Older

  /** A raw search hit: its `title`, `url` and `content`, each possibly absent. */
  datatype Hit = Hit(title: Option<string>, url: Option<string>, content: Option<string>)

  /**
   * A result dictionary: `title`, `link`, `summary`, and the `tags` and
   * `category` keys where the dictionary has them. `collected_at` is left out.
   */
  datatype Item = Item(title: string, link: Option<string>, summary: string, tags: Option<seq<string>>, category: Option<string>)

  /** One request to the search service. */
  datatype Request = Request(query: string, depth: string, maxResults: nat, domains: Option<seq<string>>)

  /** What the background thread is given: all results, the search terms and the category. */
  datatype Job = Job(results: seq<Hit>, terms: seq<string>, category: string)

  /** The reply when no search client could be made. */
  const SystemError := Item("System Error", Some(""), "Search client not available.", None, None)

  /** The reply when the search raised. */
  function SearchError(message: string): Item {
    Item("Search Error", Some(""), message, None, None)
  }

  // ---------------------------------------------------------------------
  // Keywords and query
  // ---------------------------------------------------------------------

  /** A search term: non-empty, no surrounding whitespace, no upper-case ASCII letter. */
  predicate IsTerm(t: string) {
    && t != ""
    && !IsSpace(t[0]) && !IsSpace(t[|t| - 1])
    && forall c :: c in t ==> !('A' <= c <= 'Z')
  }

  /** `[k.lower().strip() for k in keywords if k.strip()]` */
  function SearchTerms(keywords: seq<string>): seq<string> {
    if keywords == [] then []
    else (if Strip(keywords[0]) == "" then [] else [Strip(Lower(keywords[0]))]) + SearchTerms(keywords[1..])
  }

  /** Every character of `s.strip()` is a character of `s`. */
  lemma StripChars(s: string)
    ensures forall c :: c in Strip(s) ==> c in s
  {
    TrimStartShape(s);
    TrimEndShape(TrimStart(s));
  }

  /** Lower-casing and stripping a keyword that is not blank gives a search term. */
  lemma TermOf(k: string)
    requires Strip(k) != ""
    ensures IsTerm(Strip(Lower(k)))
  {
    StripShape(k);
    LowerKeepsSpaces(k);
    StripShape(Lower(k));
    StripChars(Lower(k));
  }

  /**
   * The search terms are exactly the lower-cased, stripped forms of the
   * keywords that are not blank, in keyword order: each is a search term,
   * there is one per non-blank keyword, and blank keywords are dropped.
   */
  lemma {:induction false} SearchTermsCorrect(keywords: seq<string>)
    ensures |SearchTerms(keywords)| <= |keywords|
    ensures forall t :: t in SearchTerms(keywords) ==> IsTerm(t)
    ensures forall t :: t in SearchTerms(keywords) <==> exists k :: k in keywords && Strip(k) != "" && t == Strip(Lower(k))
    ensures (forall k :: k in keywords ==> Strip(k) != "") ==> |SearchTerms(keywords)| == |keywords|
  {
    if keywords != [] {
      var k := keywords[0];
      var rest := keywords[1..];
      SearchTermsCorrect(rest);
      if Strip(k) != "" {
        TermOf(k);
      }
      assert keywords == [k] + rest;
      forall t | exists j :: j in keywords && Strip(j) != "" && t == Strip(Lower(j))
        ensures t in SearchTerms(keywords)
      {
        var j :| j in keywords && Strip(j) != "" && t == Strip(Lower(j));
        if j != k {
          assert j in rest;
        }
      }
    }
  }

  const TrendPrefix := "Latest technical trends, insights, and news about "
  const TrendSuffix := " in 2024-2025"

  /**
   * The query sent: the raw keywords joined by spaces, alone for the exact
   * category "k_blog" and wrapped in the trend sentence otherwise.
   */
  function Query(keywords: seq<string>, category: string): (q: string)
    ensures category == "k_blog" ==> q == Join(keywords)
    ensures category != "k_blog" ==> TrendPrefix <= q && OccursAt(q, Join(keywords), |TrendPrefix|) && q[|TrendPrefix| + |Join(keywords)|..] == TrendSuffix
  {
    if category == "k_blog" then Join(keywords) else TrendPrefix + Join(keywords) + TrendSuffix
  }

  // ---------------------------------------------------------------------
  // Domains
  // ---------------------------------------------------------------------

  const EngineeringDomains := [
    "github.com", "huggingface.co", "openai.com", "anthropic.com",
    "langchain.com/blog", "wandb.ai/fully-connected", "pytorch.org/blog"]

  const ResearchDomains := [
    "arxiv.org", "paperswithcode.com", "deepmind.google/research",
    "research.google", "scholar.google.com", "openreview.net"]

  const KoreanBlogDomains := [
    "techblog.woowahan.com", "medium.com/daangn", "toss.tech", "devocean.sk.com",
    "helloworld.kurly.com", "techblog.lycorp.co.jp/ko", "d2.naver.com",
    "kakaoenterprise.com", "hyperconnect.com", "ridicorp.com/story", "netmarble.engineering"]

  /** `DOMAIN_MAP`: the older copy also lists Hacker News and velog.io. */
  function DomainMap(copy: Copy): map<string, seq<string>> {
    match copy
    case Current => map[
      "tech_news" := ["news.hada.io"],
      "engineering" := EngineeringDomains,
      "research" := ResearchDomains,
      "k_blog" := KoreanBlogDomains]
    case Older => map[
      "tech_news" := ["news.hada.io", "news.ycombinator.com"],
      "engineering" := EngineeringDomains,
      "research" := ResearchDomains,
      "k_blog" := KoreanBlogDomains + ["velog.io"]]
  }

  /** `DOMAIN_MAP.get(category.lower(), DOMAIN_MAP["engineering"])` */
  function TargetDomains(copy: Copy, category: string): seq<string> {
    var m := DomainMap(copy);
    if Lower(category) in m then m[Lower(category)] else m["engineering"]
  }

  /**
   * The domain list is chosen by the lower-cased category, so case does not
   * matter; an unknown category gets the engineering list; every choice is
   * non-empty.
   */
  lemma TargetDomainsChoice(copy: Copy, category: string)
    ensures TargetDomains(copy, category) != []
    ensures Lower(category) == "engineering" || Lower(category) !in {"tech_news", "research", "k_blog"} ==>
      TargetDomains(copy, category) == EngineeringDomains
    ensures Lower(category) == "research" ==> TargetDomains(copy, category) == ResearchDomains
    ensures Lower(category) == "k_blog" ==> KoreanBlogDomains <= TargetDomains(copy, category)
    ensures Lower(category) == "tech_news" ==> TargetDomains(copy, category)[0] == "news.hada.io"
    ensures TargetDomains(copy, category) == TargetDomains(copy, Lower(category))
  {
    assert Lower(Lower(category)) == Lower(category);
  }

  /**
   * "K_BLOG" picks the Korean blog domains but not the bare query: the query
   * test is case-sensitive while the domain lookup lower-cases.
   */
  lemma UpperCaseBlogCategory(keywords: seq<string>)
    ensures TargetDomains(Current, "K_BLOG") == KoreanBlogDomains
    ensures Query(keywords, "K_BLOG") == TrendPrefix + Join(keywords) + TrendSuffix
  {
    assert Lower("K_BLOG") == "k_blog";
  }

  // ---------------------------------------------------------------------
  // Result items
  // ---------------------------------------------------------------------

  /** `_clean_text(content)[:n] + "..."` */
  function Summary(content: string, n: nat): (r: string)
    ensures 3 <= |r| <= n + 3 && r[|r| - 3..] == "..."
    ensures r[..|r| - 3] <= CleanText(content)
    ensures |r| == n + 3 || r == CleanText(content) + "..."
  {
    Take(CleanText(content), n) + "..."
  }

  /**
   * `_summarize_content` of functions.py: the model's summary of the title
   * and the first 3000 characters, or, when there is no model or it raises,
   * the cleaned content cut to 300 characters and "...".
   */
  function SummarizeContent(title: string, content: string, model: Option<(string, string) -> Result<string>>): (r: string)
    ensures model.None? ==> r == Summary(content, 300) && |r| <= 303
    ensures model.Some? && model.value(title, Take(content, 3000)).Crash? ==> r == Summary(content, 300)
  {
    if model.None? then Summary(content, 300)
    else match model.value(title, Take(content, 3000))
      case Ok(summary) => summary
      case Crash(_) => Summary(content, 300)
  }

  /** A result's title: the cleaned title, and in the current copy ` | domain` when the URL has a domain. */
  function Title(copy: Copy, hit: Hit, domainOf: string -> string): string {
    var title := CleanText(hit.title.GetOr(""));
    var domain := domainOf(hit.url.GetOr(""));
    if copy == Current && domain != "" then title + " | " + domain else title
  }

  /** The item handed back for one hit. */
  function Response(copy: Copy, hit: Hit, terms: seq<string>, domainOf: string -> string): Item {
    Item(Title(copy, hit, domainOf), hit.url, Summary(hit.content.GetOr(""), 800), Some(terms), None)
  }

  /** `[f(x) for x in xs]`, built from the front. */
  function MapSeq<A, B>(f: A -> B, xs: seq<A>): (ys: seq<B>)
    ensures |ys| == |xs|
  {
    if xs == [] then [] else MapSeq(f, xs[..|xs| - 1]) + [f(xs[|xs| - 1])]
  }

  /** The i-th mapped element is f of the i-th element. */
  lemma {:induction false} MapSeqAt<A, B>(f: A -> B, xs: seq<A>)
    ensures forall i :: 0 <= i < |xs| ==> MapSeq(f, xs)[i] == f(xs[i])
  {
    if xs != [] {
      var front := xs[..|xs| - 1];
      MapSeqAt(f, front);
      forall i | 0 <= i < |front| ensures front[i] == xs[i] { }
    }
  }

  /** The items handed back for the hits: one per hit, in order. */
  function Responses(copy: Copy, hits: seq<Hit>, terms: seq<string>, domainOf: string -> string): (items: seq<Item>)
    ensures |items| == |hits|
  {
    MapSeq(hit => Response(copy, hit, terms, domainOf), hits)
  }

  /** The item archived for one hit: no domain in the title, and the category recorded. */
  function Archived(hit: Hit, terms: seq<string>, category: string): Item {
    Item(CleanText(hit.title.GetOr("")), hit.url, Summary(hit.content.GetOr(""), 800), Some(terms), Some(category))
  }

  /** The items archived for the hits: one per hit, in order. */
  function ArchivedAll(hits: seq<Hit>, terms: seq<string>, category: string): (items: seq<Item>)
    ensures |items| == |hits|
  {
    MapSeq(hit => Archived(hit, terms, category), hits)
  }

  /** `xs[:n]` */
  function FirstN<T>(xs: seq<T>, n: nat): (r: seq<T>)
    ensures |r| <= n && r <= xs
    ensures |xs| <= n ==> r == xs
  {
    if |xs| <= n then xs else xs[..n]
  }

  /** The loop that formats the hits, in order. */
  method FormatResults(copy: Copy, hits: seq<Hit>, terms: seq<string>, domainOf: string -> string) returns (items: seq<Item>)
    ensures items == Responses(copy, hits, terms, domainOf)
  {
    items := [];
    for i := 0 to |hits|
      invariant items == Responses(copy, hits[..i], terms, domainOf)
    {
      assert hits[..i + 1][..i] == hits[..i];
      items := items + [Response(copy, hits[i], terms, domainOf)];
    }
    assert hits[..|hits|] == hits;
  }

  /** The restricted search, then the unrestricted fallback when it found nothing. */
  function Found(search: Request -> Result<seq<Hit>>, query: string, domains: seq<string>): Result<seq<Hit>> {
    match search(Request(query, "advanced", 5, Some(domains)))
    case Crash(e) => Crash(e)
    case Ok(hits) => if hits != [] then Ok(hits) else search(Request(query, "basic", 3, None))
  }

  /**
   * `perform_web_search`: a system error without a client, a search error
   * when the search raises, and otherwise the first five formatted results,
   * with all results handed to the archive job.
   */
  method PerformWebSearch(copy: Copy, keywords: seq<string>, category: string,
                          client: Option<Request -> Result<seq<Hit>>>, domainOf: string -> string)
    returns (items: seq<Item>, job: Option<Job>)
    ensures |items| <= 5
    ensures client.None? ==> items == [SystemError] && job.None?
    ensures client.Some? ==>
      var found := Found(client.value, Query(keywords, category), TargetDomains(copy, category));
      && (found.Crash? ==> items == [SearchError(found.error)] && job.None?)
      && (found.Ok? ==>
            && items == FirstN(Responses(copy, found.value, SearchTerms(keywords), domainOf), 5)
            && job == Some(Job(found.value, SearchTerms(keywords), category)))
  {
    if client.None? {
      return [SystemError], None;
    }
    var search := client.value;
    var terms := SearchTerms(keywords);
    var query := Query(keywords, category);
    var domains := TargetDomains(copy, category);
    var response := search(Request(query, "advanced", 5, Some(domains)));
    if response.Crash? {
      assert Found(search, query, domains) == response;
      return [SearchError(response.error)], None;
    }
    var results := response.value;
    if results == [] {
      var fallback := search(Request(query, "basic", 3, None));
      assert Found(search, query, domains) == fallback;
      if fallback.Crash? {
        return [SearchError(fallback.error)], None;
      }
      results := results + fallback.value;
      assert results == fallback.value;
    }
    assert Found(search, query, domains) == Ok(results);
    var formatted := FormatResults(copy, results, terms, domainOf);
    items := FirstN(formatted, 5);
    job := Some(Job(results, terms, category));
  }

  /**
   * A search that succeeds hands back at most five items while the archive
   * job gets every result; the archived copy of each item handed back has
   * the same link, summary and tags, and differs only in the title's domain
   * suffix and the category.
   */
  lemma ReturnedAgreesWithArchived(copy: Copy, hits: seq<Hit>, terms: seq<string>, category: string, domainOf: string -> string)
    ensures var items := FirstN(Responses(copy, hits, terms, domainOf), 5);
      var archived := ArchivedAll(hits, terms, category);
      && |items| == (if |hits| < 5 then |hits| else 5) && |archived| == |hits|
      && forall i :: 0 <= i < |items| ==>
        && items[i].link == archived[i].link == hits[i].url
        && items[i].summary == archived[i].summary
        && items[i].tags == archived[i].tags == Some(terms)
        && archived[i].category == Some(category) && items[i].category.None?
        && (copy == Older ==> items[i].title == archived[i].title)
        && archived[i].title <= items[i].title
  {
    var items := FirstN(Responses(copy, hits, terms, domainOf), 5);
    MapSeqAt(hit => Response(copy, hit, terms, domainOf), hits);
    MapSeqAt(hit => Archived(hit, terms, category), hits);
    forall i | 0 <= i < |items|
      ensures CleanText(hits[i].title.GetOr("")) <= items[i].title
    {
      assert items[i] == Response(copy, hits[i], terms, domainOf);
    }
  }

  // ---------------------------------------------------------------------
  // Archive merge
  // ---------------------------------------------------------------------

  /** `{item["link"] for item in all_knowledge}` */
  function Links(items: seq<Item>): set<Option<string>> {
    set x | x in items :: x.link
  }

  /**
   * The items of a batch whose link is not among `links`, in batch order;
   * `links` is the archive's links before the batch, and is not updated as
   * items are appended.
   */
  function NewItems(links: set<Option<string>>, batch: seq<Item>): (r: seq<Item>)
    ensures |r| <= |batch|
  {
    if batch == [] then []
    else
      var last := batch[|batch| - 1];
      NewItems(links, batch[..|batch| - 1]) + if last.link in links then [] else [last]
  }

  /** Only items of the batch whose link is not stored are appended. */
  lemma {:induction false} NewItemsSound(links: set<Option<string>>, batch: seq<Item>)
    ensures forall x :: x in NewItems(links, batch) ==> x in batch && x.link !in links
  {
    if batch != [] {
      NewItemsSound(links, batch[..|batch| - 1]);
      forall x | x in NewItems(links, batch[..|batch| - 1]) ensures x in batch {
        var i :| 0 <= i < |batch| - 1 && batch[..|batch| - 1][i] == x;
        assert batch[i] == x;
      }
    }
  }

  /** The archive after a batch: the old entries, then the new items. */
  function Merged(entries: seq<Item>, batch: seq<Item>): seq<Item> {
    entries + NewItems(Links(entries), batch)
  }

  /** Every item of the batch whose link is not stored is appended. */
  lemma {:induction false} NewItemsComplete(links: set<Option<string>>, batch: seq<Item>)
    ensures forall x :: x in batch && x.link !in links ==> x in NewItems(links, batch)
  {
    if batch != [] {
      NewItemsComplete(links, batch[..|batch| - 1]);
      forall x | x in batch && x.link !in links
        ensures x in NewItems(links, batch)
      {
        if x != batch[|batch| - 1] {
          var i :| 0 <= i < |batch| && batch[i] == x;
          assert x in batch[..|batch| - 1];
        }
      }
    }
  }

  /**
   * When no link of the batch is stored, the whole batch is appended,
   * items with the same link included: the links seen earlier in the same
   * batch are not checked.
   */
  lemma {:induction false} NewItemsAllFresh(links: set<Option<string>>, batch: seq<Item>)
    requires forall x :: x in batch ==> x.link !in links
    ensures NewItems(links, batch) == batch
  {
    if batch != [] {
      var init, last := batch[..|batch| - 1], batch[|batch| - 1];
      forall x | x in init ensures x.link !in links {
        var i :| 0 <= i < |init| && init[i] == x;
        assert batch[i] == x;
      }
      NewItemsAllFresh(links, init);
      assert last in batch;
      assert NewItems(links, batch) == init + [last];
      assert init + [last] == batch;
    }
  }

  /** When every link of the batch is stored, nothing is appended. */
  lemma {:induction false} NewItemsNoneFresh(links: set<Option<string>>, batch: seq<Item>)
    requires forall x :: x in batch ==> x.link in links
    ensures NewItems(links, batch) == []
  {
    if batch != [] {
      NewItemsNoneFresh(links, batch[..|batch| - 1]);
    }
  }

  /** A fresh item repeated in one batch is archived twice. */
  lemma SameBatchDuplicates(entries: seq<Item>, x: Item)
    requires x.link !in Links(entries)
    ensures Merged(entries, [x, x]) == entries + [x, x]
  {
    NewItemsAllFresh(Links(entries), [x, x]);
  }

  /** Archiving the same batch twice changes nothing the second time. */
  lemma MergeIdempotent(entries: seq<Item>, batch: seq<Item>)
    ensures Merged(Merged(entries, batch), batch) == Merged(entries, batch)
  {
    var once := Merged(entries, batch);
    NewItemsComplete(Links(entries), batch);
    forall x | x in batch
      ensures x.link in Links(once)
    {
      if x.link in Links(entries) {
        var y :| y in entries && y.link == x.link;
        assert y in once;
      } else {
        assert x in once;
      }
    }
    NewItemsNoneFresh(Links(once), batch);
    assert once + [] == once;
  }

  /** The loop that builds the batch to archive, one item per result in order. */
  method ArchiveBatch(results: seq<Hit>, terms: seq<string>, category: string) returns (batch: seq<Item>)
    ensures batch == ArchivedAll(results, terms, category)
  {
    batch := [];
    for i := 0 to |results|
      invariant batch == ArchivedAll(results[..i], terms, category)
    {
      assert results[..i + 1][..i] == results[..i];
      batch := batch + [Archived(results[i], terms, category)];
    }
    assert results[..|results|] == results;
  }

  /**
   * The merge loop: the links stored before the batch are collected once;
   * each item whose link is not among them is appended and counted.
   */
  method MergeBatch(entries: seq<Item>, batch: seq<Item>) returns (all: seq<Item>, added: nat)
    ensures all == Merged(entries, batch)
    ensures added == |all| - |entries|
  {
    all := entries;
    var existing := Links(entries);
    added := 0;
    for i := 0 to |batch|
      invariant all == entries + NewItems(existing, batch[..i])
      invariant added == |NewItems(existing, batch[..i])|
    {
      assert batch[..i + 1][..i] == batch[..i];
      if batch[i].link !in existing {
        all := all + [batch[i]];
        added := added + 1;
      }
    }
    assert batch[..|batch|] == batch;
  }

  /** The archive file, `trend.json`. */
  class KnowledgeBase {
    var entries: seq<Item>

    constructor (entries: seq<Item>)
      ensures this.entries == entries
    {
      this.entries := entries;
    }

    /**
     * `_process_and_save_background`: the batch is built from every result,
     * the items whose link the archive did not hold are appended in order,
     * and the file is written only when at least one was added.
     */
    method ProcessAndSave(results: seq<Hit>, terms: seq<string>, category: string) returns (added: nat, saved: bool)
      modifies this
      ensures added == |NewItems(Links(old(entries)), ArchivedAll(results, terms, category))|
      ensures saved <==> added > 0
      ensures entries == Merged(old(entries), ArchivedAll(results, terms, category))
      ensures !saved ==> entries == old(entries)
    {
      var batch := ArchiveBatch(results, terms, category);
      var all;
      all, added := MergeBatch(entries, batch);
      saved := added > 0;
      if saved {
        entries := all;
      }
    }
  }
}
