/** A project page of the marketplace, reduced to the elements the project-page
    getters of app/services/project_crawler.py look for. Parsing HTML into this
    record (BeautifulSoup with "html.parser") is not part of the model: the
    crawler receives the parser as a function. */
module Page {
  import opened Wrappers

  /** A descendant of a tag `<span>`: an `<a>` element with its stripped text, a
      node the parser gives without a `name` attribute (a text node) with its raw
      text, or any other element. */
  datatype Node = Anchor(text: string) | TextNode(raw: string) | OtherElement

  /** `<div class="flex gap-4 flex-col">`, with the `<p class="font-medium mb-0
      flex flex-wrap">` inside it, if any, given by the joined stripped strings of
      each of its `<span class="whitespace-nowrap">` in document order. */
  datatype StatusContainer = StatusContainer(statusLine: Option<seq<string>>)

  /** `<div class="project-description break-words">`, with the text of its
      `<div class="content">` (lines joined by "\n", stripped), if any. */
  datatype DescriptionBlock = DescriptionBlock(content: Option<string>)

  /** The first `<p class="font-medium mb-0 flex flex-wrap">` of the page, with the
      stripped text of its tooltip `<span>` titled "Budget indicatif", if any. */
  datatype BudgetParagraph = BudgetParagraph(tooltip: Option<string>)

  datatype Document = Document(
    status: Option<StatusContainer>,
    /** stripped text of `<h1 class="text-3xl lg:text-4xl font-bold mb-4 text-darker">` */
    title: Option<string>,
    description: Option<DescriptionBlock>,
    /** each `<p class="flex items-start gap-2 m-0">`, as its direct `<span>`
        children, each as its descendants in document order */
    tagParagraphs: seq<seq<seq<Node>>>,
    budget: Option<BudgetParagraph>)
}
