/** The documentation portal (DocumentationPanel.tsx): the download file
    name, the "Download All" bundle, the per-type tabs and the preview.
    The locale rendering of a date is a parameter. */
module DocumentationPanel {
  import opened Base
  import opened Text
  import opened Calendar
  import opened Entities
  import opened Engine

  // ---- the download file name (DocumentationPanel.tsx:23) ----

  /** `title.replace(/\s+/g, '-').toLowerCase()`. */
  function FileStem(title: string): (r: string)
    ensures NoSpace(r) && |r| <= |title|
  {
    ToLower(DashRuns(title))
  }

  /** The download name: the stem with `.md` appended; it holds no white space. */
  function FileName(title: string): (r: string)
    ensures NoSpace(r)
    ensures |r| == |FileStem(title)| + 3 && r[..|r| - 3] == FileStem(title) && r[|r| - 3..] == ".md"
  {
    FileStem(title) + ".md"
  }

  lemma ToLowerConcat(a: string, b: string)
    ensures ToLower(a + b) == ToLower(a) + ToLower(b)
  {
    assert forall i :: 0 <= i < |a| ==> (a + b)[i] == a[i];
    assert forall i :: |a| <= i < |a| + |b| ==> (a + b)[i] == b[i - |a|];
  }

  /** A title without white space is only lower-cased. */
  lemma FileNameOfWord(title: string)
    requires NoSpace(title)
    ensures FileName(title) == ToLower(title) + ".md"
  {
    DashRunsNoSpace(title);
  }

  /** Two words with any white-space run between them are joined by one dash. */
  lemma FileNameOfTwoWords(a: string, gap: string, b: string)
    requires NoSpace(a) && gap != [] && IsBlank(gap) && NoSpace(b)
    ensures FileName(a + gap + b) == ToLower(a) + "-" + ToLower(b) + ".md"
  {
    DashRunsOfRun(a, gap, b);
    ToLowerConcat(a + "-", b);
    ToLowerConcat(a, "-");
  }

  /** Renaming a downloaded file's stem again changes nothing. */
  lemma FileStemIdempotent(title: string)
    ensures FileStem(FileStem(title)) == FileStem(title)
  {
    var s := FileStem(title);
    DashRunsNoSpace(s);
    ToLowerIdempotent(DashRuns(title));
  }

  // ---- the per-type tabs (DocumentationPanel.tsx:72-77) ----

  function DocsOfType(docs: seq<Documentation>, t: DocType): (r: seq<Documentation>)
  {
    Filter(docs, (d: Documentation) => d.kind == t)
  }

  /** A document shows in the tab of its own type and in no other. */
  lemma InOwnTabOnly(docs: seq<Documentation>, i: nat, t: DocType)
    requires i < |docs|
    ensures docs[i] in DocsOfType(docs, docs[i].kind)
    ensures docs[i] in DocsOfType(docs, t) <==> docs[i].kind == t
  {
    FilterMembers(docs, (d: Documentation) => d.kind == docs[i].kind);
    FilterMembers(docs, (d: Documentation) => d.kind == t);
    if docs[i] in DocsOfType(docs, t) {
      var j :| 0 <= j < |DocsOfType(docs, t)| && DocsOfType(docs, t)[j] == docs[i];
    }
  }

  function TabTotal(docs: seq<Documentation>): nat {
    |DocsOfType(docs, ApiDocs)| + |DocsOfType(docs, UserGuide)|
    + |DocsOfType(docs, TechnicalDocs)| + |DocsOfType(docs, OnboardingDocs)|
  }

  /** The four tab counts add up to the "All" count. */
  lemma {:induction false} TabCountsSum(docs: seq<Documentation>)
    ensures TabTotal(docs) == |docs|
    decreases |docs|
  {
    if docs != [] {
      var n := |docs| - 1;
      var init := docs[..n];
      assert docs == init + [docs[n]];
      TabCountsSum(init);
      FilterAppend(init, docs[n], (d: Documentation) => d.kind == ApiDocs);
      FilterAppend(init, docs[n], (d: Documentation) => d.kind == UserGuide);
      FilterAppend(init, docs[n], (d: Documentation) => d.kind == TechnicalDocs);
      FilterAppend(init, docs[n], (d: Documentation) => d.kind == OnboardingDocs);
    }
  }

  // ---- the preview (DocumentationPanel.tsx:130) ----

  /** `content.substring(0, 200)` followed by `...`. */
  function Preview(content: string): (r: string)
    ensures 3 <= |r| <= 203 && r[|r| - 3..] == "..."
    ensures |r| - 3 <= |content| && r[..|r| - 3] == content[..|r| - 3]
    ensures |content| <= 200 ==> r == content + "..."
    ensures |content| > 200 ==> |r| == 203
  {
    Prefix(content, 200) + "..."
  }

  // ---- the bundle (DocumentationPanel.tsx:30-33) ----

  /** `agents.find(a => a.id === id)`: the first agent with the id. */
  function FindAgent(agents: seq<Agent>, id: string): (r: Option<Agent>)
    ensures r.Some? ==> r.value in agents && r.value.id == id
    ensures r.None? <==> forall k :: 0 <= k < |agents| ==> agents[k].id != id
    decreases |agents|
  {
    if agents == [] then None
    else if agents[0].id == id then Some(agents[0])
    else FindAgent(agents[1..], id)
  }

  /** `getAgentById(doc.author)?.name` as a template interpolates it. */
  function AuthorText(agents: seq<Agent>, id: string): string {
    match FindAgent(agents, id)
    case Some(a) => a.name
    case None => "undefined"
  }

  /** One document's section; `dateText` is the locale date rendering. */
  function Section(doc: Documentation, agents: seq<Agent>, dateText: CalDate -> string): (r: string)
    ensures |r| >= |doc.title| + 2 && r[..|doc.title| + 2] == "# " + doc.title
  {
    var head := "# " + doc.title;
    var r := head + "\n\nType: " + DocTypeName(doc.kind) + "\nAuthor: " + AuthorText(agents, doc.author)
      + "\nVersion: " + doc.version + "\nLast Updated: " + dateText(doc.lastUpdated)
      + "\n\n" + doc.content + "\n\n---\n\n";
    assert r[..|head|] == head;
    r
  }

  function Sections(docs: seq<Documentation>, agents: seq<Agent>, dateText: CalDate -> string): (r: seq<string>)
    ensures |r| == |docs|
  {
    seq(|docs|, i requires 0 <= i < |docs| => Section(docs[i], agents, dateText))
  }

  /** The "Download All" text: the sections joined by newlines. */
  function Bundle(docs: seq<Documentation>, agents: seq<Agent>, dateText: CalDate -> string): string {
    Join(Sections(docs, agents, dateText), "\n")
  }

  /** Where the section of document `i` begins in the bundle. */
  function SectionStart(docs: seq<Documentation>, agents: seq<Agent>, dateText: CalDate -> string, i: nat): nat
    requires i < |docs|
  {
    PartStart(Sections(docs, agents, dateText), "\n", i)
  }

  /** The bundle has one section per document, in list order: the section
      of document `i` (which begins `# <title>`) sits at its start, and the
      next section begins one newline after it. */
  lemma BundleSections(docs: seq<Documentation>, agents: seq<Agent>, dateText: CalDate -> string, i: nat)
    requires i < |docs|
    ensures var s := SectionStart(docs, agents, dateText, i);
      var sec := Section(docs[i], agents, dateText);
      && s + |sec| <= |Bundle(docs, agents, dateText)|
      && Bundle(docs, agents, dateText)[s..s + |sec|] == sec
      && (i + 1 < |docs| ==> SectionStart(docs, agents, dateText, i + 1) == s + |sec| + 1)
  {
    JoinPartPosition(Sections(docs, agents, dateText), "\n", i);
  }
}
