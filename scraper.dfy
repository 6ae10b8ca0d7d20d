/**
 * The website scraper that builds the knowledge base: the page list, the text clean-up,
 * the entry built for a scraped page, the fixed fallback texts and the two ways fallback
 * entries are appended (per failed page, or the whole catalogue when scraping fails).
 */
module Scraper {
  import opened Wrappers
  import opened Text

  const BaseUrl: string := "https://metalogics.io"
  const MaxContentLength: nat := 2000
  const MinScrapedLength: nat := 100

  /** A page to scrape: its path below the base URL, its title and its category. */
  datatype PageInfo = PageInfo(url: string, title: string, category: string)

  /** A knowledge-base entry (the scrape timestamp is not modelled). */
  datatype Entry = Entry(id: string, title: string, content: string, category: string, url: string, fallback: bool)

  const Pages: seq<PageInfo> := [
    PageInfo("/", "Home", "general"),
    PageInfo("/about", "About Us", "company"),
    PageInfo("/services", "Services", "services"),
    PageInfo("/portfolio", "Portfolio", "portfolio"),
    PageInfo("/contact", "Contact", "contact")]

  /** The categories with fallback text, in the order the catalogue lists them. */
  const Categories: seq<string> := ["general", "company", "services", "portfolio", "contact"]

  // ---------------------------------------------------------------------------
  // Cleaning page text
  // ---------------------------------------------------------------------------

  /** The suffix of `s` after its leading characters that satisfy `p`. */
  function DropWhile(s: string, p: char -> bool): (r: string)
    ensures |r| <= |s| && r == s[|s| - |r|..]
    ensures r == [] || !p(r[0])
    decreases |s|
  {
    if s != [] && p(s[0]) then DropWhile(s[1..], p) else s
  }

  /** `s.replace(/x+/g, ' ')` where `p` is the class `x`: every maximal run becomes one space. */
  function CollapseRuns(s: string, p: char -> bool): (r: string)
    ensures |r| <= |s|
    ensures forall k :: 0 <= k < |r| ==> r[k] == ' ' || (!p(r[k]) && r[k] in s)
    ensures (forall k :: 0 <= k < |s| ==> !p(s[k])) ==> r == s
    decreases |s|
  {
    if s == [] then []
    else if p(s[0]) then
      var rest := DropWhile(s[1..], p);
      [' '] + CollapseRuns(rest, p)
    else
      var tail := CollapseRuns(s[1..], p);
      assert forall k :: 0 <= k < |tail| && tail[k] in s[1..] ==> tail[k] in s;
      [s[0]] + tail
  }

  predicate IsNewline(c: char) {
    c == '\n'
  }

  /** The class `[\w\s.,!?;:()\-]` of characters the clean-up keeps. */
  predicate IsKept(c: char) {
    IsWordChar(c) || IsSpace(c) || c in ".,!?;:()-"
  }

  /** `s.replace(/[^...]/g, '')`: the kept characters, in order. */
  function KeepOnly(s: string): (r: string)
    ensures |r| <= |s|
    ensures forall k :: 0 <= k < |r| ==> IsKept(r[k]) && r[k] in s
    ensures (forall k :: 0 <= k < |s| ==> IsKept(s[k])) ==> r == s
    decreases |s|
  {
    if s == [] then []
    else
      var tail := KeepOnly(s[1..]);
      assert forall k :: 0 <= k < |tail| && tail[k] in s[1..] ==> tail[k] in s;
      if IsKept(s[0]) then [s[0]] + tail else tail
  }

  /** Every character is kept by the clean-up and the only whitespace is the space itself. */
  predicate OnlyCleanChars(s: string) {
    forall k :: 0 <= k < |s| ==> IsKept(s[k]) && (IsSpace(s[k]) ==> s[k] == ' ')
  }

  lemma SliceOnlyCleanChars(s: string, i: nat, j: nat)
    requires i <= j <= |s| && OnlyCleanChars(s)
    ensures OnlyCleanChars(s[i..j])
  {
    assert forall k :: 0 <= k < j - i ==> s[i..j][k] == s[i + k];
  }

  /** After the first replacement the only whitespace left is the space itself. */
  lemma CollapsedSpacesArePlain(content: string)
    ensures var s := CollapseRuns(CollapseRuns(content, IsSpace), IsNewline);
      forall k :: 0 <= k < |s| ==> IsSpace(s[k]) ==> s[k] == ' '
  {
  }

  /** `cleanContent`: collapse whitespace runs, then newline runs, drop other characters, trim, cut at 2000. */
  function CleanContent(content: string): (r: string)
    ensures |r| <= MaxContentLength
  {
    Cut(Trim(Prepared(content)))
  }

  /** The three replacements, before trimming. */
  function Prepared(content: string): string {
    KeepOnly(CollapseRuns(CollapseRuns(content, IsSpace), IsNewline))
  }

  /** `substring(0, 2000)`. */
  function Cut(s: string): (r: string)
    ensures |r| == if |s| <= MaxContentLength then |s| else MaxContentLength
    ensures r == s[..|r|]
  {
    if |s| <= MaxContentLength then s else s[..MaxContentLength]
  }

  /** Before trimming, the text already holds only kept characters and plain spaces. */
  lemma KeptTextIsClean(content: string)
    ensures OnlyCleanChars(Prepared(content))
  {
    var lined := CollapseRuns(CollapseRuns(content, IsSpace), IsNewline);
    CollapsedSpacesArePlain(content);
    var kept := KeepOnly(lined);
    forall k | 0 <= k < |kept| && IsSpace(kept[k])
      ensures kept[k] == ' '
    {
      var j :| 0 <= j < |lined| && lined[j] == kept[k];
    }
  }

  /** A clean character is a word character, a space or one of `.,!?;:()-`. */
  lemma CleanCharsAllowed(s: string)
    requires OnlyCleanChars(s)
    ensures forall k :: 0 <= k < |s| ==> IsWordChar(s[k]) || s[k] in " .,!?;:()-"
  {
    forall k | 0 <= k < |s|
      ensures IsWordChar(s[k]) || s[k] in " .,!?;:()-"
    {
      assert IsKept(s[k]) && (IsSpace(s[k]) ==> s[k] == ' ');
    }
  }

  lemma TrimKeepsCleanChars(s: string)
    requires OnlyCleanChars(s)
    ensures OnlyCleanChars(Trim(s))
  {
    var i := |s| - |TrimStart(s)|;
    SliceOnlyCleanChars(s, i, i + |Trim(s)|);
  }

  /** Trimming and cutting a clean text: allowed characters, no space at the start, and one at the end only after a cut. */
  lemma TrimAndCutFacts(kept: string)
    requires OnlyCleanChars(kept)
    ensures var r := Cut(Trim(kept));
      && (forall k :: 0 <= k < |r| ==> IsWordChar(r[k]) || r[k] in " .,!?;:()-")
      && (r == [] || r[0] != ' ')
      && (r != [] && r[|r| - 1] == ' ' ==> |r| == MaxContentLength)
  {
    var trimmed := Trim(kept);
    TrimKeepsCleanChars(kept);
    var r := Cut(trimmed);
    assert r == trimmed[0..|r|];
    SliceOnlyCleanChars(trimmed, 0, |r|);
    CleanCharsAllowed(r);
    if r != [] {
      assert r[0] == trimmed[0];
    }
  }

  /**
   * The cleaned text holds only word characters, spaces and `.,!?;:()-` (so no newline or
   * tab), never starts with a space, and ends with one only when it was cut at 2000.
   */
  lemma CleanContentFacts(content: string)
    ensures var r := CleanContent(content);
      && (forall k :: 0 <= k < |r| ==> IsWordChar(r[k]) || r[k] in " .,!?;:()-")
      && (r == [] || r[0] != ' ')
      && (r != [] && r[|r| - 1] == ' ' ==> |r| == MaxContentLength)
  {
    KeptTextIsClean(content);
    TrimAndCutFacts(Prepared(content));
  }

  /** The second replacement never changes anything: the first leaves no newline behind. */
  lemma NewlinePassIsIdentity(content: string)
    ensures var spaced := CollapseRuns(content, IsSpace); CollapseRuns(spaced, IsNewline) == spaced
  {
    var spaced := CollapseRuns(content, IsSpace);
    assert forall k :: 0 <= k < |spaced| ==> !IsNewline(spaced[k]);
  }

  // ---------------------------------------------------------------------------
  // Entries
  // ---------------------------------------------------------------------------

  /** `` `${category}-${url.replace(/\//g, '-') || 'home'}` ``. */
  function ScrapedId(info: PageInfo): (id: string)
    ensures info.url != [] ==> id == info.category + "-" + ReplaceChar(info.url, '/', '-')
    ensures info.url == [] ==> id == info.category + "-home"
  {
    var path := ReplaceChar(info.url, '/', '-');
    info.category + "-" + (if path == [] then "home" else path)
  }

  /** The root page's path is "/", not empty, so its id is "general--" and "home" is never used for it. */
  lemma RootPageId()
    ensures ScrapedId(Pages[0]) == "general--"
    ensures ScrapedId(Pages[1]) == "company--about"
  {
    assert ReplaceChar("/", '/', '-') == "-";
    assert ReplaceChar("/about", '/', '-') == "-about";
  }

  /** What scraping one page adds: an entry only for more than 100 cleaned characters. */
  function ScrapedEntries(base: string, info: PageInfo, text: string): (r: seq<Entry>)
    ensures |r| <= 1
    ensures r != [] <==> |CleanContent(text)| > MinScrapedLength
    ensures r != [] ==> r[0] == Entry(ScrapedId(info), info.title, CleanContent(text), info.category,
                                      base + info.url, false)
  {
    var cleaned := CleanContent(text);
    if |cleaned| > MinScrapedLength then [Entry(ScrapedId(info), info.title, cleaned, info.category, base + info.url, false)]
    else []
  }

  const GeneralText: string := ("Metalogics is a leading technology " +
    "company specializing in innovative " +
    "software solutions, AI development, and " +
    "digital transformation services. We " +
    "help businesses leverage cutting-edge " +
    "technology to achieve their goals and " +
    "stay competitive in the digital age.")
  const CompanyText: string := ("Metalogics was founded with the vision " +
    "of bridging the gap between complex " +
    "technology and business success. Our " +
    "team of experienced developers, AI " +
    "specialists, and digital strategists " +
    "work together to deliver solutions that " +
    "drive real business value. We believe " +
    "in the power of technology to transform " +
    "industries and create new opportunities.")
  const ServicesText: string := ("Metalogics offers comprehensive " +
    "technology services including: Custom " +
    "Software Development - tailored " +
    "applications built to your " +
    "specifications; AI and Machine Learning " +
    "Solutions - intelligent systems that " +
    "learn and adapt; Cloud Infrastructure - " +
    "scalable and secure cloud deployments; " +
    "Mobile App Development - native and " +
    "cross-platform mobile applications; " +
    "Digital Consulting - strategic guidance " +
    "for digital transformation; DevOps and " +
    "Automation - streamlined development " +
    "and deployment processes.")
  const PortfolioText: string := ("Metalogics has successfully delivered " +
    "projects across various industries " +
    "including healthcare, finance, " +
    "e-commerce, and manufacturing. Our " +
    "portfolio showcases innovative " +
    "solutions that have helped businesses " +
    "increase efficiency, reduce costs, and " +
    "improve customer experiences. From " +
    "AI-powered analytics platforms to " +
    "enterprise-grade web applications, we " +
    "have the expertise to handle projects " +
    "of any scale.")
  const ContactText: string := ("Ready to transform your business with " +
    "cutting-edge technology? Contact " +
    "Metalogics today to schedule a free " +
    "consultation. Our team is ready to " +
    "discuss your project requirements and " +
    "provide tailored solutions that meet " +
    "your specific needs. We offer flexible " +
    "engagement models and competitive " +
    "pricing to ensure the best value for " +
    "your investment.")

  /** `getFallbackContent`: fixed text for exactly the five categories, none for any other. */
  function FallbackText(category: string): (r: Option<string>)
    ensures r.Some? ==> r.value != []
  {
    if category == "general" then Some(GeneralText)
    else if category == "company" then Some(CompanyText)
    else if category == "services" then Some(ServicesText)
    else if category == "portfolio" then Some(PortfolioText)
    else if category == "contact" then Some(ContactText)
    else None
  }

  /** Exactly the five categories have fallback text. */
  lemma FallbackTextDomain(category: string)
    ensures FallbackText(category).Some? <==> category in Categories
  {
  }

  /** What `addFallbackContent` appends for a page: its fallback entry, if its category has text. */
  function FallbackEntries(base: string, info: PageInfo): (r: seq<Entry>)
    ensures |r| == if FallbackText(info.category).Some? then 1 else 0
    ensures r != [] ==> r[0] == Entry(info.category + "-fallback", info.title, FallbackText(info.category).value,
                                      info.category, base + info.url, true)
  {
    var text := FallbackText(info.category);
    if text.Some? then [Entry(info.category + "-fallback", info.title, text.value, info.category, base + info.url, true)]
    else []
  }

  /** The catalogue entry of a category, as the fallback knowledge base builds it. */
  function CatalogueEntry(base: string, category: string): Entry
    requires category in Categories
  {
    FallbackTextDomain(category);
    Entry(category + "-fallback", Capitalize(category), FallbackText(category).value, category,
          base + "/" + (if category == "general" then "" else category), true)
  }

  function Catalogue(base: string): (r: seq<Entry>)
    ensures |r| == |Categories|
  {
    seq(|Categories|, i requires 0 <= i < |Categories| => CatalogueEntry(base, Categories[i]))
  }

  /**
   * The catalogue has one entry per category, in order: id `category-fallback`, the
   * category with its first letter upper-cased as title, its fallback text, and the base
   * URL with `/category` (just `/` for `general`).
   */
  lemma CatalogueFacts(base: string, i: nat)
    requires i < |Categories|
    ensures var e := Catalogue(base)[i]; var c := Categories[i];
      && e.id == c + "-fallback" && e.category == c && e.fallback
      && |e.title| == |c| && e.title[0] == UpperChar(c[0]) && e.title[1..] == c[1..]
      && 'A' <= e.title[0] <= 'Z'
      && Some(e.content) == FallbackText(c)
      && e.url == base + "/" + (if c == "general" then "" else c)
  {
    var c := Categories[i];
    assert 'a' <= c[0] <= 'z';
  }

  lemma CatalogueStep(base: string, i: nat)
    requires i < |Categories|
    ensures Catalogue(base)[..i + 1] == Catalogue(base)[..i] + [CatalogueEntry(base, Categories[i])]
  {
    assert Catalogue(base)[..i + 1] == Catalogue(base)[..i] + [Catalogue(base)[i]];
  }

  /** What one page of the scraping loop adds: its scraped entry, or its fallback if it failed. */
  function PageOutcome(base: string, info: PageInfo, text: Option<string>): seq<Entry> {
    if text.None? then FallbackEntries(base, info) else ScrapedEntries(base, info, text.value)
  }

  /** The pieces one after the other. */
  function Flatten(pieces: seq<seq<Entry>>): seq<Entry>
    decreases |pieces|
  {
    if pieces == [] then [] else Flatten(pieces[..|pieces| - 1]) + pieces[|pieces| - 1]
  }

  lemma {:induction false} FlattenSplit(pieces: seq<seq<Entry>>, i: nat)
    requires i <= |pieces|
    ensures Flatten(pieces) == Flatten(pieces[..i]) + Flatten(pieces[i..])
    decreases |pieces|
  {
    if i == |pieces| {
      assert pieces[..i] == pieces && pieces[i..] == [];
    } else {
      var n := |pieces| - 1;
      FlattenSplit(pieces[..n], i);
      assert pieces[..n][..i] == pieces[..i];
      var rest := pieces[i..];
      assert rest[..|rest| - 1] == pieces[..n][i..] && rest[|rest| - 1] == pieces[n];
    }
  }

  lemma FlattenSnoc(pieces: seq<seq<Entry>>, i: nat)
    requires i < |pieces|
    ensures Flatten(pieces[..i + 1]) == Flatten(pieces[..i]) + pieces[i]
  {
    var front := pieces[..i + 1];
    assert front[..|front| - 1] == pieces[..i] && front[|front| - 1] == pieces[i];
  }

  lemma FlattenAround(pieces: seq<seq<Entry>>, i: nat)
    requires i < |pieces|
    ensures Flatten(pieces) == Flatten(pieces[..i]) + pieces[i] + Flatten(pieces[i + 1..])
  {
    FlattenSplit(pieces, i + 1);
    FlattenSnoc(pieces, i);
  }

  lemma {:induction false} FlattenBound(pieces: seq<seq<Entry>>)
    requires forall i :: 0 <= i < |pieces| ==> |pieces[i]| <= 1
    ensures |Flatten(pieces)| <= |pieces|
    decreases |pieces|
  {
    if pieces != [] {
      FlattenBound(pieces[..|pieces| - 1]);
    }
  }

  /** What each page of `infos` adds; `texts[i]` is page `i`'s text, `None` when it failed. */
  function Outcomes(base: string, infos: seq<PageInfo>, texts: seq<Option<string>>): (r: seq<seq<Entry>>)
    requires |infos| == |texts|
    ensures |r| == |infos|
    ensures forall i :: 0 <= i < |r| ==> r[i] == PageOutcome(base, infos[i], texts[i])
  {
    seq(|infos|, i requires 0 <= i < |infos| => PageOutcome(base, infos[i], texts[i]))
  }

  /** What the scraping loop adds for `infos`, page after page. */
  function PageEntries(base: string, infos: seq<PageInfo>, texts: seq<Option<string>>): seq<Entry>
    requires |infos| == |texts|
  {
    Flatten(Outcomes(base, infos, texts))
  }

  /** Each page adds at most one entry. */
  lemma PageEntriesBound(base: string, infos: seq<PageInfo>, texts: seq<Option<string>>)
    requires |infos| == |texts|
    ensures |PageEntries(base, infos, texts)| <= |infos|
  {
    FlattenBound(Outcomes(base, infos, texts));
  }

  /** The outcomes of the first `n` pages are the first `n` outcomes. */
  lemma OutcomesPrefix(base: string, infos: seq<PageInfo>, texts: seq<Option<string>>, n: nat)
    requires |infos| == |texts| && n <= |infos|
    ensures Outcomes(base, infos, texts)[..n] == Outcomes(base, infos[..n], texts[..n])
  {
    var all := Outcomes(base, infos, texts);
    var part := Outcomes(base, infos[..n], texts[..n]);
    forall k | 0 <= k < n
      ensures all[..n][k] == part[k]
    {
      assert infos[..n][k] == infos[k] && texts[..n][k] == texts[k];
    }
  }

  /** The outcomes of the pages after the first `n` are the outcomes after the first `n`. */
  lemma OutcomesSuffix(base: string, infos: seq<PageInfo>, texts: seq<Option<string>>, n: nat)
    requires |infos| == |texts| && n <= |infos|
    ensures Outcomes(base, infos, texts)[n..] == Outcomes(base, infos[n..], texts[n..])
  {
    var all := Outcomes(base, infos, texts);
    var part := Outcomes(base, infos[n..], texts[n..]);
    forall k | 0 <= k < |infos| - n
      ensures all[n..][k] == part[k]
    {
      assert infos[n..][k] == infos[n + k] && texts[n..][k] == texts[n + k];
    }
  }

  /** One more page appends what that page adds. */
  lemma PageEntriesStep(base: string, infos: seq<PageInfo>, texts: seq<Option<string>>, i: nat)
    requires |infos| == |texts| && i < |infos|
    ensures PageEntries(base, infos[..i + 1], texts[..i + 1])
         == PageEntries(base, infos[..i], texts[..i]) + PageOutcome(base, infos[i], texts[i])
  {
    var all := Outcomes(base, infos, texts);
    FlattenSnoc(all, i);
    OutcomesPrefix(base, infos, texts, i + 1);
    OutcomesPrefix(base, infos, texts, i);
  }

  /** All pages taken together. */
  lemma PageEntriesWhole(base: string, infos: seq<PageInfo>, texts: seq<Option<string>>)
    requires |infos| == |texts|
    ensures PageEntries(base, infos[..|infos|], texts[..|texts|]) == PageEntries(base, infos, texts)
  {
    assert infos[..|infos|] == infos && texts[..|texts|] == texts;
  }

  /**
   * A page whose scrape fails contributes exactly its fallback entry, at its place in the
   * order: what the earlier pages add comes before it and what the later ones add after.
   */
  lemma FailedPageGetsFallback(base: string, infos: seq<PageInfo>, texts: seq<Option<string>>, i: nat)
    requires |infos| == |texts| && i < |infos| && texts[i].None?
    ensures PageEntries(base, infos, texts)
         == PageEntries(base, infos[..i], texts[..i]) + FallbackEntries(base, infos[i])
            + PageEntries(base, infos[i + 1..], texts[i + 1..])
  {
    var all := Outcomes(base, infos, texts);
    FlattenAround(all, i);
    OutcomesPrefix(base, infos, texts, i);
    OutcomesSuffix(base, infos, texts, i + 1);
  }

  // ---------------------------------------------------------------------------
  // The scraper
  // ---------------------------------------------------------------------------

  class WebsiteScraper {
    var baseUrl: string
    var knowledgeBase: seq<Entry>

    constructor ()
      ensures baseUrl == BaseUrl && knowledgeBase == []
    {
      baseUrl := BaseUrl;
      knowledgeBase := [];
    }

    /**
     * `scrapePage`. `text` is the page's visible text, `None` when loading it throws; then
     * nothing is added and the failure is reported.
     */
    method ScrapePage(info: PageInfo, text: Option<string>) returns (ok: bool)
      modifies this
      ensures baseUrl == old(baseUrl) && ok == text.Some?
      ensures knowledgeBase == old(knowledgeBase) + (if ok then ScrapedEntries(baseUrl, info, text.value) else [])
    {
      if text.None? {
        return false;
      }
      var cleaned := CleanContent(text.value);
      if |cleaned| > MinScrapedLength {
        knowledgeBase := knowledgeBase + [Entry(ScrapedId(info), info.title, cleaned, info.category, baseUrl + info.url, false)];
      }
      ok := true;
    }

    /** `addFallbackContent`. */
    method AddFallbackContent(info: PageInfo)
      modifies this
      ensures baseUrl == old(baseUrl)
      ensures knowledgeBase == old(knowledgeBase) + FallbackEntries(baseUrl, info)
    {
      var text := FallbackText(info.category);
      if text.Some? {
        knowledgeBase := knowledgeBase + [Entry(info.category + "-fallback", info.title, text.value, info.category,
                                                baseUrl + info.url, true)];
      }
    }

    /** `createFallbackKnowledgeBase`: the five catalogue entries after whatever is there. */
    method CreateFallbackKnowledgeBase()
      modifies this
      ensures baseUrl == old(baseUrl)
      ensures knowledgeBase == old(knowledgeBase) + Catalogue(baseUrl)
    {
      var i := 0;
      while i < |Categories|
        invariant 0 <= i <= |Categories| && baseUrl == old(baseUrl)
        invariant knowledgeBase == old(knowledgeBase) + Catalogue(baseUrl)[..i]
      {
        AddCatalogueEntry(Categories[i]);
        CatalogueStep(baseUrl, i);
        i := i + 1;
      }
      assert Catalogue(baseUrl)[..i] == Catalogue(baseUrl);
    }

    /** One turn of the fallback loop: the category's entry, under `/category` (`/` for `general`). */
    method AddCatalogueEntry(category: string)
      requires category in Categories
      modifies this
      ensures baseUrl == old(baseUrl)
      ensures knowledgeBase == old(knowledgeBase) + [CatalogueEntry(baseUrl, category)]
    {
      var text := FallbackText(category);
      FallbackTextDomain(category);
      if text.Some? {
        var url := baseUrl + "/" + (if category == "general" then "" else category);
        knowledgeBase := knowledgeBase + [Entry(category + "-fallback", Capitalize(category), text.value, category, url, true)];
      }
    }

    /** One turn of the page loop: scrape the page, or add its fallback entry when that fails. */
    method ScrapeOrFallback(info: PageInfo, text: Option<string>)
      modifies this
      ensures baseUrl == old(baseUrl)
      ensures knowledgeBase == old(knowledgeBase) + PageOutcome(baseUrl, info, text)
    {
      var ok := ScrapePage(info, text);
      if !ok {
        AddFallbackContent(info);
      }
    }

    /** The page loop of `scrapeWebsite`: each page is scraped, or falls back when that fails. */
    method ScrapePages(pages: seq<PageInfo>, texts: seq<Option<string>>)
      requires |texts| == |pages|
      modifies this
      ensures baseUrl == old(baseUrl)
      ensures knowledgeBase == old(knowledgeBase) + PageEntries(baseUrl, pages, texts)
    {
      var i := 0;
      while i < |pages|
        invariant 0 <= i <= |pages| && baseUrl == old(baseUrl)
        invariant knowledgeBase == old(knowledgeBase) + PageEntries(baseUrl, pages[..i], texts[..i])
      {
        ScrapeOrFallback(pages[i], texts[i]);
        PageEntriesStep(baseUrl, pages, texts, i);
        i := i + 1;
      }
      PageEntriesWhole(baseUrl, pages, texts);
    }

    /**
     * `scrapeWebsite`. `launchFails` says the browser cannot be started, `texts[i]` is
     * the text of `Pages[i]` (`None` when it fails) and `closeFails` says closing the
     * browser throws; either failure appends the whole catalogue.
     */
    method ScrapeWebsite(launchFails: bool, texts: seq<Option<string>>, closeFails: bool)
      requires |texts| == |Pages|
      modifies this
      ensures baseUrl == old(baseUrl)
      ensures launchFails ==> knowledgeBase == old(knowledgeBase) + Catalogue(baseUrl)
      ensures !launchFails ==> knowledgeBase == old(knowledgeBase) + PageEntries(baseUrl, Pages, texts)
                                                 + (if closeFails then Catalogue(baseUrl) else [])
    {
      if launchFails {
        CreateFallbackKnowledgeBase();
        return;
      }
      ScrapePages(Pages, texts);
      if closeFails {
        CreateFallbackKnowledgeBase();
      }
    }
  }
}
