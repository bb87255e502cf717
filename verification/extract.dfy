/** `extract_projectUrl_from_emailcontent`: the project link of a notification e-mail. */
module Extract {
  import opened Wrappers
  import opened Text

  /** The text every project link contains. */
  const ProjectMarker: string := "https://www.codeur.com/projects/"

  /** An `<a>` element of the e-mail; `href` is absent when the element has none. */
  datatype Link = Link(href: Option<string>)

  /** The parsed e-mail: the anchors of its `<body>` in document order, or `None`
      when the document has no `<body>`. */
  datatype EmailDoc = EmailDoc(body: Option<seq<Link>>)

  /** `link["href"]` on an anchor without `href` raises `KeyError`. */
  datatype ExtractError = MissingHref

  /** A link at which the scan stops: one without `href` (it raises there) or one
      whose `href` contains the marker (it is returned). */
  predicate Decisive(l: Link)
  {
    l.href.None? || Contains(l.href.value, ProjectMarker)
  }

  /** The scan over the anchors, returning on the first decisive one. */
  function FirstMatch(links: seq<Link>): (r: Result<Option<string>, ExtractError>)
    ensures r.Ok? && r.value.Some? ==>
      Contains(r.value.value, ProjectMarker) && exists i :: 0 <= i < |links| && links[i].href == r.value
    ensures r.Err? ==> exists i :: 0 <= i < |links| && links[i].href.None?
  {
    if links == [] then Ok(None)
    else
      match links[0].href
      case None => Err(MissingHref)
      case Some(h) =>
        if Contains(h, ProjectMarker) then Ok(Some(h))
        else
          var rest := FirstMatch(links[1..]);
          assert rest.Ok? && rest.value.Some? ==> exists i :: 0 <= i < |links| && links[i].href == rest.value by {
            if rest.Ok? && rest.value.Some? {
              var i :| 0 <= i < |links[1..]| && links[1..][i].href == rest.value;
              assert links[i + 1].href == rest.value;
            }
          }
          assert rest.Err? ==> exists i :: 0 <= i < |links| && links[i].href.None? by {
            if rest.Err? {
              var i :| 0 <= i < |links[1..]| && links[1..][i].href.None?;
              assert links[i + 1].href.None?;
            }
          }
          rest
  }

  function ExtractProjectUrl(doc: EmailDoc): Result<Option<string>, ExtractError>
  {
    match doc.body
    case None => Ok(None)
    case Some(links) => FirstMatch(links)
  }

  /** The scan's result is decided by the first decisive link: its `href` when it
      has one, `KeyError` when it has none; nothing when no link is decisive. */
  lemma {:induction false} FirstMatchDecidedByFirstDecisive(links: seq<Link>)
    ensures (forall i :: 0 <= i < |links| ==> !Decisive(links[i])) ==> FirstMatch(links) == Ok(None)
    ensures forall i :: 0 <= i < |links| && Decisive(links[i]) && (forall j :: 0 <= j < i ==> !Decisive(links[j])) ==>
      FirstMatch(links) == if links[i].href.None? then Err(MissingHref) else Ok(links[i].href)
  {
    if links != [] {
      FirstMatchDecidedByFirstDecisive(links[1..]);
      if !Decisive(links[0]) {
        forall i | 0 <= i < |links| && Decisive(links[i]) && (forall j :: 0 <= j < i ==> !Decisive(links[j]))
          ensures FirstMatch(links) == if links[i].href.None? then Err(MissingHref) else Ok(links[i].href)
        {
          assert i > 0;
          assert links[1..][i - 1] == links[i];
          forall j | 0 <= j < i - 1 ensures !Decisive(links[1..][j]) {
            assert links[1..][j] == links[j + 1];
          }
        }
        if forall i :: 0 <= i < |links| ==> !Decisive(links[i]) {
          forall j | 0 <= j < |links[1..]| ensures !Decisive(links[1..][j]) {
            assert links[1..][j] == links[j + 1];
          }
        }
      }
    }
  }

  /** No `<body>`, or no anchor in it whose `href` has the marker (and none without
      `href`): no link. */
  lemma ExtractNone(doc: EmailDoc)
    ensures doc.body.None? ==> ExtractProjectUrl(doc) == Ok(None)
    ensures doc.body.Some? && (forall i :: 0 <= i < |doc.body.value| ==>
        doc.body.value[i].href.Some? && !Contains(doc.body.value[i].href.value, ProjectMarker)) ==>
      ExtractProjectUrl(doc) == Ok(None)
    ensures ExtractProjectUrl(doc) == Ok(None) && doc.body.Some? ==>
      forall i :: 0 <= i < |doc.body.value| ==> !Decisive(doc.body.value[i])
  {
    if doc.body.Some? {
      var links := doc.body.value;
      FirstMatchDecidedByFirstDecisive(links);
      if exists i :: 0 <= i < |links| && Decisive(links[i]) {
        var i := FirstDecisive(links);
        assert FirstMatch(links) != Ok(None);
      }
    }
  }

  /** The index of the first decisive link, when there is one. */
  function FirstDecisive(links: seq<Link>): (i: nat)
    requires exists i :: 0 <= i < |links| && Decisive(links[i])
    ensures i < |links| && Decisive(links[i]) && forall j :: 0 <= j < i ==> !Decisive(links[j])
  {
    if Decisive(links[0]) then 0
    else
      assert exists i :: 0 <= i < |links[1..]| && Decisive(links[1..][i]) by {
        var i :| 0 <= i < |links| && Decisive(links[i]);
        assert links[1..][i - 1] == links[i];
      }
      var k := FirstDecisive(links[1..]);
      assert links[1..][k] == links[k + 1];
      assert forall j :: 1 <= j < k + 1 ==> !Decisive(links[j]) by {
        forall j | 1 <= j < k + 1 ensures !Decisive(links[j]) {
          assert links[1..][j - 1] == links[j];
        }
      }
      k + 1
  }
}
