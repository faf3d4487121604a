/** The outbound Confluence normalizer: it turns a decoded Confluence webhook
    record into a canonical chat message. Decoding itself (JSON) is not modelled:
    the normalizer receives the record the decoder produced together with the
    decoder's error, if any. */
module Confluence {
  import opened Wrappers
  import opened CommonChat

  const DisplayName := "Confluence"
  const HandlerKey := "confluence"
  const MessageDirection := "out"

  /** Go's int64, the type of every date, id and version in the payload. */
  newtype Int64 = x: int | -0x8000_0000_0000_0000 <= x < 0x8000_0000_0000_0000

  /** A page as Confluence sends it. */
  datatype ConfluencePage = ConfluencePage(
    spaceKey: string,
    modificationDate: Int64,
    creatorKey: string,
    creatorName: string,
    lastModifierKey: string,
    self: string,
    lastModifierName: string,
    id: Int64,
    title: string,
    creationDate: Int64,
    version: Int64)
  {
    /** A page is new when it has a (positive) modification date that is exactly its creation date. */
    predicate IsCreated()
    {
      modificationDate > 0 && modificationDate == creationDate
    }

    /** Every page that is not new counts as updated. */
    function IsUpdated(): (r: bool)
      ensures r <==> !IsCreated()
    {
      if IsCreated() then false else true
    }

    /** Both a title and a link are present, so the page can be shown as a link. */
    predicate HasLink()
    {
      |title| > 0 && |self| > 0
    }
  }

  /** A comment as Confluence sends it, with the page it belongs to. */
  datatype ConfluenceComment = ConfluenceComment(
    spaceKey: string,
    parent: ConfluencePage,
    modificationDate: Int64,
    creatorKey: string,
    creatorName: string,
    lastModifierKey: string,
    self: string,
    lastModifierName: string,
    id: Int64,
    creationDate: Int64,
    version: Int64)
  {
    /** A comment is new when its (positive) modification date is exactly its creation date. */
    predicate IsCreated()
    {
      modificationDate > 0 && modificationDate == creationDate
    }

    /** Every comment that is not new counts as updated. */
    function IsUpdated(): (r: bool)
      ensures r <==> !IsCreated()
    {
      if IsCreated() then false else true
    }
  }

  /** The whole webhook record. Absent JSON members decode to zero values. */
  datatype ConfluenceOutMessage = ConfluenceOutMessage(
    user: string,
    userKey: string,
    timestamp: Int64,
    username: string,
    page: ConfluencePage,
    comment: ConfluenceComment)
  {
    /** The event concerns a comment exactly when the comment carries a positive
        modification date; there is no event-type member to consult. */
    predicate IsComment()
    {
      comment.modificationDate > 0
    }
  }

  /** A record in which, for a comment event, `page` is the comment's parent page. */
  predicate PageIsParentOfComment(m: ConfluenceOutMessage)
  {
    m.IsComment() ==> m.page == m.comment.parent
  }

  /** The step after decoding: for a comment event the record's page is replaced
      by the comment's parent page. This happens whether or not decoding failed,
      and the decoder's error is passed on unchanged. */
  function FromDecoded(decoded: ConfluenceOutMessage, unmarshalError: Option<string>)
    : (r: (ConfluenceOutMessage, Option<string>))
    ensures r.1 == unmarshalError
    ensures r.0.comment == decoded.comment
    ensures r.0.IsComment() <==> decoded.IsComment()
    ensures decoded.IsComment() ==> r.0.page == decoded.comment.parent
    ensures !decoded.IsComment() ==> r.0 == decoded
    ensures r.0.user == decoded.user && r.0.userKey == decoded.userKey
    ensures r.0.timestamp == decoded.timestamp && r.0.username == decoded.username
    ensures PageIsParentOfComment(r.0)
  {
    var msg := if decoded.IsComment() then decoded.(page := decoded.comment.parent) else decoded;
    (msg, unmarshalError)
  }

  /** Rewriting a record that is already rewritten changes nothing. */
  lemma FromDecodedIdempotent(decoded: ConfluenceOutMessage, e: Option<string>)
    ensures FromDecoded(FromDecoded(decoded, e).0, e) == FromDecoded(decoded, e)
  {
  }

  /** The four kinds of event the normalizer tells apart. */
  datatype EventKind = PageCreated | PageUpdated | CommentCreated | CommentUpdated {
    predicate OnComment() { CommentCreated? || CommentUpdated? }
    predicate Created() { PageCreated? || CommentCreated? }
  }

  /** The classification: first comment versus page, then created versus updated,
      each judged on the record the event is about. */
  function Classify(m: ConfluenceOutMessage): (k: EventKind)
    ensures k.OnComment() <==> m.IsComment()
    ensures m.IsComment() ==> (k.Created() <==> m.comment.IsCreated())
    ensures !m.IsComment() ==> (k.Created() <==> m.page.IsCreated())
  {
    if !m.IsComment() then
      if m.page.IsCreated() then PageCreated else PageUpdated
    else
      if m.comment.IsCreated() then CommentCreated else CommentUpdated
  }

  /** Who the activity line names: the comment's creator for a comment event,
      the page's creator otherwise. */
  function Actor(m: ConfluenceOutMessage): string
  {
    if m.IsComment() then m.comment.creatorName else m.page.creatorName
  }

  /** The words that follow the actor in the activity line. */
  function Phrase(k: EventKind): string
  {
    match k
    case PageCreated => " created page"
    case PageUpdated => " updated page"
    case CommentCreated => " commented on page"
    case CommentUpdated => " updated comment on page"
  }

  /** The "Page" field: the page title as a markup link to the page. */
  function PageField(p: ConfluencePage): Field
  {
    Field("Page", "[" + p.title + "](" + p.self + ")", true)
  }

  /** The fields of the single attachment, as a function of the (rewritten) page:
      a "Page" field exactly when the page has a title and a link, then a "Space"
      field holding the space key exactly when that key is non-empty. */
  function ExpectedFields(p: ConfluencePage): (fs: seq<Field>)
    ensures |fs| == (if p.HasLink() then 1 else 0) + (if |p.spaceKey| > 0 then 1 else 0)
    ensures p.HasLink() ==> fs[0] == PageField(p)
    ensures |p.spaceKey| > 0 ==> fs[|fs| - 1] == Field("Space", p.spaceKey, true)
    ensures forall i :: 0 <= i < |fs| ==> fs[i].short && |fs[i].value| > 0
  {
    (if p.HasLink() then [PageField(p)] else [])
      + (if |p.spaceKey| > 0 then [Field("Space", p.spaceKey, true)] else [])
  }

  /** Some field of `fs` carries the title `title`. */
  predicate HasFieldTitled(fs: seq<Field>, title: string)
  {
    exists i :: 0 <= i < |fs| && fs[i].title == title
  }

  /** Both directions of the presence rules, and "Page" never follows "Space". */
  lemma ExpectedFieldsPresence(p: ConfluencePage)
    ensures HasFieldTitled(ExpectedFields(p), "Page") <==> p.HasLink()
    ensures HasFieldTitled(ExpectedFields(p), "Space") <==> |p.spaceKey| > 0
    ensures forall i, j ::
      (0 <= i < |ExpectedFields(p)| && 0 <= j < |ExpectedFields(p)|
       && ExpectedFields(p)[i].title == "Page" && ExpectedFields(p)[j].title == "Space") ==> i < j
  {
    var fs := ExpectedFields(p);
    if p.HasLink() {
      assert fs[0].title == "Page";
    }
    if |p.spaceKey| > 0 {
      assert fs[|fs| - 1].title == "Space";
    }
  }

  /** Turns one decoded webhook record into a canonical message. On a decoding
      error the message carries at most the configured icon and the error is
      returned; otherwise the message gets an activity line and exactly one
      attachment. `appIconURL` is the configured icon of this handler, if any. */
  method Normalize(appIconURL: Option<string>, decoded: ConfluenceOutMessage, unmarshalError: Option<string>)
    returns (ccMsg: Message, err: Option<string>)
    ensures err == unmarshalError
    ensures ccMsg.iconURL == appIconURL.GetOr("")
    ensures err.Some? ==> ccMsg.activity == "" && ccMsg.attachments == []
    ensures err.None? ==>
      var src := FromDecoded(decoded, unmarshalError).0;
      && ccMsg.activity == Actor(src) + Phrase(Classify(src))
      && |ccMsg.attachments| == 1
      && ccMsg.attachments[0].fields == ExpectedFields(src.page)
  {
    ccMsg := EmptyMessage;
    if appIconURL.Some? {
      ccMsg := ccMsg.(iconURL := appIconURL.value);
    }

    var decodedResult := FromDecoded(decoded, unmarshalError);
    var src := decodedResult.0;
    err := decodedResult.1;
    if err.Some? {
      return;
    }

    if !src.IsComment() {
      if src.page.IsCreated() {
        ccMsg := ccMsg.(activity := src.page.creatorName + " created page");
      } else {
        ccMsg := ccMsg.(activity := src.page.creatorName + " updated page");
      }
    } else {
      if src.comment.IsCreated() {
        ccMsg := ccMsg.(activity := src.comment.creatorName + " commented on page");
      } else {
        ccMsg := ccMsg.(activity := src.comment.creatorName + " updated comment on page");
      }
    }

    var attachment := EmptyAttachment;
    if |src.page.title| > 0 && |src.page.self| > 0 {
      attachment := attachment.AddField(Field("Page", "[" + src.page.title + "](" + src.page.self + ")", true));
    }
    if |src.page.spaceKey| > 0 {
      var field := Field("Space", "", true);
      if src.IsComment() {
        field := field.(value := src.comment.parent.spaceKey);
      } else {
        field := field.(value := src.page.spaceKey);
      }
      attachment := attachment.AddField(field);
    }

    ccMsg := ccMsg.AddAttachment(attachment);
  }

  // ---------------------------------------------------------------------------
  // The activity line names the event unambiguously.

  predicate EndsWith(s: string, suffix: string)
  {
    |suffix| <= |s| && s[|s| - |suffix|..] == suffix
  }

  /** Reads the event kind back from an activity line by its closing phrase. */
  function EventOfActivity(line: string): Option<EventKind>
  {
    if EndsWith(line, Phrase(CommentUpdated)) then Some(CommentUpdated)
    else if EndsWith(line, Phrase(CommentCreated)) then Some(CommentCreated)
    else if EndsWith(line, Phrase(PageCreated)) then Some(PageCreated)
    else if EndsWith(line, Phrase(PageUpdated)) then Some(PageUpdated)
    else None
  }

  /** A string ending in `p` does not end in `q` when the two differ `i` places from their ends. */
  lemma NotEndsWith(actor: string, p: string, q: string, i: nat)
    requires i < |p| && i < |q| && p[|p| - 1 - i] != q[|q| - 1 - i]
    ensures !EndsWith(actor + p, q)
  {
    var s := actor + p;
    assert s[|s| - 1 - i] == p[|p| - 1 - i];
  }

  /** Whatever the actor's name, the activity line tells which of the four events happened. */
  lemma ActivityNamesEvent(actor: string, k: EventKind)
    ensures EventOfActivity(actor + Phrase(k)) == Some(k)
  {
    var line := actor + Phrase(k);
    assert line[|line| - |Phrase(k)|..] == Phrase(k);
    match k
    case CommentUpdated =>
    case CommentCreated =>
      NotEndsWith(actor, Phrase(k), Phrase(CommentUpdated), 8);
    case PageCreated =>
      NotEndsWith(actor, Phrase(k), Phrase(CommentUpdated), 5);
      NotEndsWith(actor, Phrase(k), Phrase(CommentCreated), 5);
    case PageUpdated =>
      NotEndsWith(actor, Phrase(k), Phrase(CommentUpdated), 5);
      NotEndsWith(actor, Phrase(k), Phrase(CommentCreated), 5);
      NotEndsWith(actor, Phrase(k), Phrase(PageCreated), 9);
  }

  // ---------------------------------------------------------------------------
  // Classification facts.

  /** A comment whose modification date is zero (or negative) makes the event a page event. */
  lemma ZeroCommentDateIsPageEvent(m: ConfluenceOutMessage)
    requires m.comment.modificationDate <= 0
    ensures !Classify(m).OnComment()
  {
  }

  /** A page is new only on exactly equal, positive dates: any other pair, in
      either order, makes it an update. */
  lemma PageCreatedOnEqualDates(p: ConfluencePage)
    ensures p.modificationDate > 0 && p.modificationDate == p.creationDate ==> !p.IsUpdated()
    ensures p.modificationDate != p.creationDate ==> p.IsUpdated()
    ensures p.modificationDate <= 0 ==> p.IsUpdated()
  {
  }

  /** The same rule on a comment's own dates. */
  lemma CommentCreatedOnEqualDates(c: ConfluenceComment)
    ensures c.modificationDate > 0 && c.modificationDate == c.creationDate ==> !c.IsUpdated()
    ensures c.modificationDate != c.creationDate ==> c.IsUpdated()
    ensures c.modificationDate <= 0 ==> c.IsUpdated()
  {
  }

  /** A freshly created comment: equal positive dates give "<creator> commented on page". */
  lemma CommentCreatedScenario(m: ConfluenceOutMessage)
    requires m.comment.modificationDate == 1420000000000 && m.comment.creationDate == 1420000000000
    ensures Classify(FromDecoded(m, None).0) == CommentCreated
    ensures Actor(FromDecoded(m, None).0) + Phrase(CommentCreated) == m.comment.creatorName + " commented on page"
  {
  }

  /** An edited comment: a modification date after the creation date gives "<creator> updated comment on page". */
  lemma CommentUpdatedScenario(m: ConfluenceOutMessage)
    requires m.comment.modificationDate > m.comment.creationDate > 0
    ensures Classify(FromDecoded(m, None).0) == CommentUpdated
    ensures Actor(FromDecoded(m, None).0) + Phrase(CommentUpdated) == m.comment.creatorName + " updated comment on page"
  {
  }

  /** A page without a link gets no "Page" field but still a "Space" field when it has a space key. */
  lemma PageWithoutLinkScenario(p: ConfluencePage)
    requires |p.self| == 0 && |p.spaceKey| > 0
    ensures ExpectedFields(p) == [Field("Space", p.spaceKey, true)]
  {
  }

  /** The comment-creation scenario end to end: a new comment on a page that has a
      space key but no link yields "<creator> commented on page" and one
      attachment holding only the "Space" field of the parent page. */
  method NormalizeNewCommentScenario(m: ConfluenceOutMessage) returns (ccMsg: Message)
    requires m.comment.modificationDate == 1420000000000 && m.comment.creationDate == 1420000000000
    requires |m.comment.parent.self| == 0 && |m.comment.parent.spaceKey| > 0
    ensures ccMsg.activity == m.comment.creatorName + " commented on page"
    ensures ccMsg.iconURL == ""
    ensures ccMsg.attachments == [Attachment([Field("Space", m.comment.parent.spaceKey, true)])]
  {
    var err;
    ccMsg, err := Normalize(None, m, None);
    assert err.None?;
    var src := FromDecoded(m, None).0;
    assert src.page == m.comment.parent && !src.page.HasLink();
    assert ExpectedFields(src.page) == [Field("Space", m.comment.parent.spaceKey, true)];
  }
}
