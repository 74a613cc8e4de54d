/**
 * `TurtlePersonActivitySerializer`: renders comments, forum memberships and
 * likes as RDF statements in Turtle syntax, one `write` of a statement buffer
 * per entity, all into the single `social_network_activity` file. The
 * `Turtle`, `SN` and vocabulary helpers are not part of this model: a
 * statement is kept in abstract form, as the helper call that produces it
 * (`Turtle.AddTriple` with its `beginning`/`end` flags, or
 * `Turtle.createTripleSPO`), over abstract URIs and literals.
 */
module TurtleActivity {
  import opened Wrappers
  import opened Entities
  import opened JavaText
  import opened Comments

  /** The XSD datatypes of typed literals. */
  datatype XsdType = XsdLong | XsdInt | XsdDateTime

  /** Subjects and objects: `SN` URIs, vocabulary classes, dictionary resources and literals. */
  datatype Node =
    | PostUri(id: int)            // SN.getPostURI
    | CommentUri(id: int)         // SN.getCommentURI
    | PersonUri(id: int)          // SN.getPersonURI
    | ForumUri(id: int)           // SN.getForumURI
    | MembershipUri(id: int)      // SN.getMembershipURI
    | LikeUri(id: int)            // SN.getLikeURI
    | CommentClass                // SNVOC.Comment
    | Dbpedia(name: string)       // DBP.fullPrefixed
    | SnTag(name: string)         // SNTAG.fullPrefixed
    | Literal(text: JavaString)   // Turtle.createLiteral
    | Typed(lexical: string, xsd: XsdType)  // Turtle.createDataTypeLiteral

  /** The predicates the modelled overloads use (`RDF.type` and the `SNVOC` vocabulary). */
  datatype Pred =
    | RdfType | Id | CreationDate | IpAddress | Browser | HasGif | Content | Length
    | ReplyOf | LocatedIn | HasCreator | HasMentioned | HasVisibility | HasLink | HasTag
    | HasMember | HasPerson | JoinDate | Likes | HasPost | HasComment

  /**
   * One statement: `Triple(first, last, …)` is `Turtle.AddTriple(result, first, last, …)`,
   * a piece of an abbreviated block that `first` opens with its subject and
   * `last` closes; `Spo` is `Turtle.createTripleSPO`, a complete triple.
   */
  datatype Stmt =
    | Triple(first: bool, last: bool, s: Node, p: Pred, o: Node)
    | Spo(s: Node, p: Pred, o: Node)

  /** What `initialize` and `serialize` write to a file. */
  datatype Chunk = Namespaces | StaticNamespaces | Statements(stmts: seq<Stmt>)

  /** One `HDFSWriter`: its file name and what has been written to it. */
  datatype TurtleWriter = TurtleWriter(fileName: string, chunks: seq<Chunk>)

  /** `FileNames`: the single `SOCIAL_NETWORK` file. */
  const NumFiles: nat := 1
  const SocialNetwork: nat := 0
  const SocialNetworkName := "social_network_activity"

  /** The collaborators the serialiser calls: the date format, dictionaries, `IP.toString` and `SN.formId`. */
  datatype TurtleLookups = TurtleLookups(
    formatDateTime: int -> string,
    browserName: int -> string,
    placeName: int -> string,
    tagName: int -> string,
    ipText: IP -> string,
    formId: int -> int)

  // ---------------------------------------------------------------------------
  // Reading a statement list

  /** The objects of the statements with predicate `p`, in order. */
  function Objects(stmts: seq<Stmt>, p: Pred): seq<Node>
  {
    if stmts == [] then []
    else (if stmts[0].p == p then [stmts[0].o] else []) + Objects(stmts[1..], p)
  }

  lemma {:induction false} ObjectsAppend(a: seq<Stmt>, b: seq<Stmt>, p: Pred)
    ensures Objects(a + b, p) == Objects(a, p) + Objects(b, p)
    decreases |a|
  {
    if a == [] {
      assert a + b == b;
    } else {
      assert (a + b)[1..] == a[1..] + b;
      ObjectsAppend(a[1..], b, p);
    }
  }

  lemma ObjectsOne(st: Stmt, p: Pred)
    ensures Objects([st], p) == if st.p == p then [st.o] else []
  {
    assert [st][1..] == [];
  }

  /** Statements none of which has predicate `p`. */
  lemma {:induction false} ObjectsNone(stmts: seq<Stmt>, p: Pred)
    requires forall k :: 0 <= k < |stmts| ==> stmts[k].p != p
    ensures Objects(stmts, p) == []
    decreases |stmts|
  {
    if stmts != [] {
      ObjectsNone(stmts[1..], p);
    }
  }

  /**
   * Follows the abbreviated blocks: `open` says whether a subject block is
   * open. A `Triple` must open a block exactly when none is open, and closes
   * it when `last`; a complete triple may only stand outside a block. `None`
   * marks a statement out of place.
   */
  function Scan(stmts: seq<Stmt>, open: bool): Option<bool>
  {
    if stmts == [] then Some(open)
    else
      var st := stmts[0];
      match st
      case Triple(first, last, _, _, _) => if first == open then None else Scan(stmts[1..], !last)
      case Spo(_, _, _) => if open then None else Scan(stmts[1..], false)
  }

  /** Every block that is opened is closed, and no block is left open. */
  predicate Balanced(stmts: seq<Stmt>)
  {
    Scan(stmts, false) == Some(false)
  }

  lemma {:induction false} ScanAppend(a: seq<Stmt>, b: seq<Stmt>, open: bool)
    ensures Scan(a + b, open) == if Scan(a, open).Some? then Scan(b, Scan(a, open).value) else None
    decreases |a|
  {
    if a == [] {
      assert a + b == b;
    } else {
      assert (a + b)[0] == a[0];
      assert (a + b)[1..] == a[1..] + b;
      match a[0]
      case Triple(first, last, _, _, _) =>
        if first != open {
          ScanAppend(a[1..], b, !last);
        }
      case Spo(_, _, _) =>
        if !open {
          ScanAppend(a[1..], b, false);
        }
    }
  }

  lemma BalancedAppend(a: seq<Stmt>, b: seq<Stmt>)
    requires Balanced(a) && Balanced(b)
    ensures Balanced(a + b)
  {
    ScanAppend(a, b, false);
  }

  /** Complete triples only. */
  predicate AllSpo(stmts: seq<Stmt>)
  {
    forall k :: 0 <= k < |stmts| ==> stmts[k].Spo?
  }

  lemma {:induction false} AllSpoBalanced(stmts: seq<Stmt>)
    requires AllSpo(stmts)
    ensures Balanced(stmts)
    decreases |stmts|
  {
    if stmts != [] {
      assert AllSpo(stmts[1..]);
      AllSpoBalanced(stmts[1..]);
    }
  }

  lemma AllSpoAppend(a: seq<Stmt>, b: seq<Stmt>)
    requires AllSpo(a) && AllSpo(b)
    ensures AllSpo(a + b)
  {
    forall k | 0 <= k < |a + b|
      ensures (a + b)[k].Spo?
    {
      if k >= |a| {
        assert (a + b)[k] == b[k - |a|];
      }
    }
  }

  /** Pieces that neither open nor close a block. */
  predicate Continuing(stmts: seq<Stmt>)
  {
    forall k :: 0 <= k < |stmts| ==> stmts[k].Triple? && !stmts[k].first && !stmts[k].last
  }

  lemma {:induction false} ScanContinuing(stmts: seq<Stmt>, rest: seq<Stmt>)
    requires Continuing(stmts)
    ensures Scan(stmts + rest, true) == Scan(rest, true)
    decreases |stmts|
  {
    if stmts == [] {
      assert stmts + rest == rest;
    } else {
      assert stmts + rest == [stmts[0]] + (stmts[1..] + rest);
      ScanCons(stmts[0], stmts[1..] + rest, true);
      assert Continuing(stmts[1..]);
      ScanContinuing(stmts[1..], rest);
    }
  }

  lemma ScanCons(st: Stmt, rest: seq<Stmt>, open: bool)
    ensures Scan([st] + rest, open)
         == if st.Triple? then (if st.first == open then None else Scan(rest, !st.last))
            else (if open then None else Scan(rest, false))
  {
    assert ([st] + rest)[1..] == rest;
  }

  /** A complete triple followed by a block of an opening and a closing piece. */
  lemma SpoThenBlock(a: Stmt, b: Stmt, c: Stmt)
    requires a.Spo? && b.Triple? && b.first && !b.last && c.Triple? && !c.first && c.last
    ensures Balanced([a, b, c])
  {
    assert [a, b, c] == [a] + ([b] + [c]);
    ScanCons(a, [b] + [c], false);
    ScanCons(b, [c], false);
    ScanCons(c, [], true);
    assert [c] + [] == [c];
  }

  lemma ObjectsThree(a: Stmt, b: Stmt, c: Stmt, p: Pred)
    ensures Objects([a, b, c], p)
         == (if a.p == p then [a.o] else []) + (if b.p == p then [b.o] else []) + (if c.p == p then [c.o] else [])
  {
    assert [a, b, c] == [a] + [b] + [c];
    ObjectsAppend([a] + [b], [c], p);
    ObjectsAppend([a], [b], p);
    ObjectsOne(a, p);
    ObjectsOne(b, p);
    ObjectsOne(c, p);
  }

  // ---------------------------------------------------------------------------
  // serialize(Comment)

  /** One `hasTag` triple per tag, to the tag's `SNTAG` resource, in the tags' order. */
  function TagStmts(subject: Node, tags: seq<int>, tl: TurtleLookups): (stmts: seq<Stmt>)
    ensures |stmts| == |tags|
  {
    if tags == [] then []
    else TagStmts(subject, tags[..|tags| - 1], tl) + [Spo(subject, HasTag, SnTag(tl.tagName(tags[|tags| - 1])))]
  }

  /** The tag resources, in the tags' order. */
  function TagNodes(tags: seq<int>, tl: TurtleLookups): (nodes: seq<Node>)
    ensures |nodes| == |tags|
  {
    if tags == [] then [] else TagNodes(tags[..|tags| - 1], tl) + [SnTag(tl.tagName(tags[|tags| - 1]))]
  }

  lemma {:induction false} TagStmtsFacts(subject: Node, tags: seq<int>, tl: TurtleLookups, p: Pred)
    ensures AllSpo(TagStmts(subject, tags, tl))
    ensures Objects(TagStmts(subject, tags, tl), p) == if p == HasTag then TagNodes(tags, tl) else []
    decreases |tags|
  {
    if tags != [] {
      var front := tags[..|tags| - 1];
      var last := Spo(subject, HasTag, SnTag(tl.tagName(tags[|tags| - 1])));
      TagStmtsFacts(subject, front, tl, p);
      AllSpoAppend(TagStmts(subject, front, tl), [last]);
      ObjectsAppend(TagStmts(subject, front, tl), [last], p);
      ObjectsOne(last, p);
    }
  }

  /** The opening of the comment's block: type, id, creation date, IP address and browser. */
  function CommentHead(m: MessageFields, tl: TurtleLookups): seq<Stmt>
  {
    var prefix := CommentUri(m.messageId);
    [Triple(true, false, prefix, RdfType, CommentClass),
     Triple(false, false, prefix, Id, Typed(NumberText(m.messageId), XsdLong)),
     Triple(false, false, prefix, CreationDate, Typed(tl.formatDateTime(m.creationDate), XsdDateTime)),
     Triple(false, false, prefix, IpAddress, Literal(Some(tl.ipText(m.ipAddress)))),
     Triple(false, false, prefix, Browser, Literal(Some(tl.browserName(m.browserId))))]
  }

  /** The block's close: the gif when the content is empty, else the content and its length. */
  function CommentBody(m: MessageFields, gif: JavaString): seq<Stmt>
  {
    var prefix := CommentUri(m.messageId);
    if m.content == "" then [Triple(false, true, prefix, HasGif, Literal(gif))]
    else [Triple(false, false, prefix, Content, Literal(Some(m.content))),
          Triple(false, true, prefix, Length, Typed(NumberText(|m.content|), XsdInt))]
  }

  /** What the comment replies to: the post when the parent is the thread root, else the parent comment. */
  function ReplyTarget(postId: int, replyOf: int): Node
  {
    if replyOf == postId then PostUri(postId) else CommentUri(replyOf)
  }

  /** The `locatedIn` triple, present only when the country is known. */
  function PlaceStmts(subject: Node, country: Option<int>, tl: TurtleLookups): seq<Stmt>
  {
    if country.Some? then [Spo(subject, LocatedIn, Dbpedia(tl.placeName(country.value)))] else []
  }

  /**
   * The three triples drawn from an unseeded `Random`, each present when its
   * draw passed its threshold (`mentioned`: > 0.6, `limited`: > 0.95, `linked`: > 0.57).
   */
  function DrawnStmts(subject: Node, author: PersonSummary, mentioned: bool, limited: bool, linked: bool): seq<Stmt>
  {
    (if mentioned then [Spo(subject, HasMentioned, PersonUri(author.accountId))] else [])
    + (if limited then [Spo(subject, HasVisibility, Literal(Some("limited")))] else [])
    + (if linked then [Spo(subject, HasLink, Literal(Some("link")))] else [])
  }

  /** The complete triples after the block: reply, place, creator, drawn triples, tags. */
  function CommentLinks(m: MessageFields, country: Option<int>, postId: int, replyOf: int,
                        mentioned: bool, limited: bool, linked: bool, tl: TurtleLookups): seq<Stmt>
  {
    var prefix := CommentUri(m.messageId);
    [Spo(prefix, ReplyOf, ReplyTarget(postId, replyOf))]
    + PlaceStmts(prefix, country, tl)
    + [Spo(prefix, HasCreator, PersonUri(m.author.accountId))]
    + DrawnStmts(prefix, m.author, mentioned, limited, linked)
    + TagStmts(prefix, m.tags, tl)
  }

  /** `serialize(Comment)`: the statements of the comment's buffer. */
  function CommentStmts(m: MessageFields, country: Option<int>, postId: int, replyOf: int, gif: JavaString,
                        mentioned: bool, limited: bool, linked: bool, tl: TurtleLookups): seq<Stmt>
  {
    CommentHead(m, tl) + CommentBody(m, gif) + CommentLinks(m, country, postId, replyOf, mentioned, limited, linked, tl)
  }

  lemma DrawnFacts(subject: Node, author: PersonSummary, mentioned: bool, limited: bool, linked: bool, p: Pred)
    requires p != HasMentioned && p != HasVisibility && p != HasLink
    ensures AllSpo(DrawnStmts(subject, author, mentioned, limited, linked))
    ensures Objects(DrawnStmts(subject, author, mentioned, limited, linked), p) == []
  {
    ObjectsNone(DrawnStmts(subject, author, mentioned, limited, linked), p);
  }

  lemma PlaceFacts(subject: Node, country: Option<int>, tl: TurtleLookups, p: Pred)
    ensures AllSpo(PlaceStmts(subject, country, tl))
    ensures Objects(PlaceStmts(subject, country, tl), p)
         == if p == LocatedIn && country.Some? then [Dbpedia(tl.placeName(country.value))] else []
  {
    if country.Some? {
      ObjectsOne(PlaceStmts(subject, country, tl)[0], p);
    }
  }

  lemma ObjectsParts(a: seq<Stmt>, b: seq<Stmt>, c: seq<Stmt>, d: seq<Stmt>, e: seq<Stmt>, p: Pred)
    ensures Objects(a + b + c + d + e, p)
         == Objects(a, p) + Objects(b, p) + Objects(c, p) + Objects(d, p) + Objects(e, p)
  {
    ObjectsAppend(a + b + c + d, e, p);
    ObjectsAppend(a + b + c, d, p);
    ObjectsAppend(a + b, c, p);
    ObjectsAppend(a, b, p);
  }

  lemma AllSpoParts(a: seq<Stmt>, b: seq<Stmt>, c: seq<Stmt>, d: seq<Stmt>, e: seq<Stmt>)
    requires AllSpo(a) && AllSpo(b) && AllSpo(c) && AllSpo(d) && AllSpo(e)
    ensures AllSpo(a + b + c + d + e)
  {
    AllSpoAppend(a, b);
    AllSpoAppend(a + b, c);
    AllSpoAppend(a + b + c, d);
    AllSpoAppend(a + b + c + d, e);
  }

  /** The objects the complete triples after a comment's block give any predicate but the drawn ones. */
  lemma CommentLinksFacts(m: MessageFields, country: Option<int>, postId: int, replyOf: int,
                          mentioned: bool, limited: bool, linked: bool, tl: TurtleLookups, p: Pred)
    requires p != HasMentioned && p != HasVisibility && p != HasLink
    ensures AllSpo(CommentLinks(m, country, postId, replyOf, mentioned, limited, linked, tl))
    ensures Objects(CommentLinks(m, country, postId, replyOf, mentioned, limited, linked, tl), p)
         == (if p == ReplyOf then [ReplyTarget(postId, replyOf)] else [])
            + (if p == LocatedIn && country.Some? then [Dbpedia(tl.placeName(country.value))] else [])
            + (if p == HasCreator then [PersonUri(m.author.accountId)] else [])
            + (if p == HasTag then TagNodes(m.tags, tl) else [])
  {
    var prefix := CommentUri(m.messageId);
    var reply := [Spo(prefix, ReplyOf, ReplyTarget(postId, replyOf))];
    var place := PlaceStmts(prefix, country, tl);
    var creator := [Spo(prefix, HasCreator, PersonUri(m.author.accountId))];
    var drawn := DrawnStmts(prefix, m.author, mentioned, limited, linked);
    var tags := TagStmts(prefix, m.tags, tl);
    PlaceFacts(prefix, country, tl, p);
    DrawnFacts(prefix, m.author, mentioned, limited, linked, p);
    TagStmtsFacts(prefix, m.tags, tl, p);
    ObjectsOne(reply[0], p);
    ObjectsOne(creator[0], p);
    ObjectsParts(reply, place, creator, drawn, tags, p);
    AllSpoParts(reply, place, creator, drawn, tags);
  }

  /** For the predicates of the block's close, the comment's objects are those of its close. */
  lemma CommentBodyPred(m: MessageFields, country: Option<int>, postId: int, replyOf: int, gif: JavaString,
                        mentioned: bool, limited: bool, linked: bool, tl: TurtleLookups, p: Pred)
    requires p == HasGif || p == Content || p == Length
    ensures Objects(CommentStmts(m, country, postId, replyOf, gif, mentioned, limited, linked, tl), p)
         == Objects(CommentBody(m, gif), p)
  {
    var head := CommentHead(m, tl);
    var links := CommentLinks(m, country, postId, replyOf, mentioned, limited, linked, tl);
    ObjectsNone(head, p);
    CommentLinksFacts(m, country, postId, replyOf, mentioned, limited, linked, tl, p);
    ObjectsAppend(head, CommentBody(m, gif), p);
    ObjectsAppend(head + CommentBody(m, gif), links, p);
  }

  /** For the predicates of the complete triples, the comment's objects are those of its complete triples. */
  lemma CommentLinksPred(m: MessageFields, country: Option<int>, postId: int, replyOf: int, gif: JavaString,
                         mentioned: bool, limited: bool, linked: bool, tl: TurtleLookups, p: Pred)
    requires p == ReplyOf || p == LocatedIn || p == HasCreator || p == HasTag
    ensures Objects(CommentStmts(m, country, postId, replyOf, gif, mentioned, limited, linked, tl), p)
         == Objects(CommentLinks(m, country, postId, replyOf, mentioned, limited, linked, tl), p)
  {
    var head := CommentHead(m, tl);
    var body := CommentBody(m, gif);
    ObjectsNone(head, p);
    ObjectsNone(body, p);
    ObjectsAppend(head, body, p);
    ObjectsAppend(head + body, CommentLinks(m, country, postId, replyOf, mentioned, limited, linked, tl), p);
  }

  lemma BodyObjects(m: MessageFields, gif: JavaString, p: Pred)
    ensures Objects(CommentBody(m, gif), p)
         == (if p == HasGif && m.content == "" then [Literal(gif)] else [])
            + (if p == Content && m.content != "" then [Literal(Some(m.content))] else [])
            + (if p == Length && m.content != "" then [Typed(NumberText(|m.content|), XsdInt)] else [])
  {
    var body := CommentBody(m, gif);
    if m.content == "" {
      ObjectsOne(body[0], p);
    } else {
      assert body == [body[0]] + [body[1]];
      ObjectsAppend([body[0]], [body[1]], p);
      ObjectsOne(body[0], p);
      ObjectsOne(body[1], p);
    }
  }

  /**
   * A comment with empty content carries its gif and neither content nor
   * length; any other comment carries its content and its length and no gif.
   */
  lemma CommentGifOrContent(m: MessageFields, country: Option<int>, postId: int, replyOf: int, gif: JavaString,
                            mentioned: bool, limited: bool, linked: bool, tl: TurtleLookups)
    ensures Objects(CommentStmts(m, country, postId, replyOf, gif, mentioned, limited, linked, tl), HasGif)
         == if m.content == "" then [Literal(gif)] else []
    ensures Objects(CommentStmts(m, country, postId, replyOf, gif, mentioned, limited, linked, tl), Content)
         == if m.content == "" then [] else [Literal(Some(m.content))]
    ensures Objects(CommentStmts(m, country, postId, replyOf, gif, mentioned, limited, linked, tl), Length)
         == if m.content == "" then [] else [Typed(NumberText(|m.content|), XsdInt)]
  {
    CommentBodyPred(m, country, postId, replyOf, gif, mentioned, limited, linked, tl, HasGif);
    BodyObjects(m, gif, HasGif);
    CommentBodyPred(m, country, postId, replyOf, gif, mentioned, limited, linked, tl, Content);
    BodyObjects(m, gif, Content);
    CommentBodyPred(m, country, postId, replyOf, gif, mentioned, limited, linked, tl, Length);
    BodyObjects(m, gif, Length);
  }

  /** A comment replies to exactly one resource: the post when its parent is the thread root, else the parent comment; it names one creator. */
  lemma CommentReplyAndCreator(m: MessageFields, country: Option<int>, postId: int, replyOf: int, gif: JavaString,
                               mentioned: bool, limited: bool, linked: bool, tl: TurtleLookups)
    ensures Objects(CommentStmts(m, country, postId, replyOf, gif, mentioned, limited, linked, tl), ReplyOf)
         == [if replyOf == postId then PostUri(postId) else CommentUri(replyOf)]
    ensures Objects(CommentStmts(m, country, postId, replyOf, gif, mentioned, limited, linked, tl), HasCreator)
         == [PersonUri(m.author.accountId)]
  {
    CommentLinksPred(m, country, postId, replyOf, gif, mentioned, limited, linked, tl, ReplyOf);
    CommentLinksFacts(m, country, postId, replyOf, mentioned, limited, linked, tl, ReplyOf);
    CommentLinksPred(m, country, postId, replyOf, gif, mentioned, limited, linked, tl, HasCreator);
    CommentLinksFacts(m, country, postId, replyOf, mentioned, limited, linked, tl, HasCreator);
  }

  /** A comment has a place exactly when its country is known, and one tag resource per tag, in order. */
  lemma CommentPlaceAndTags(m: MessageFields, country: Option<int>, postId: int, replyOf: int, gif: JavaString,
                            mentioned: bool, limited: bool, linked: bool, tl: TurtleLookups)
    ensures Objects(CommentStmts(m, country, postId, replyOf, gif, mentioned, limited, linked, tl), LocatedIn)
         == if country.Some? then [Dbpedia(tl.placeName(country.value))] else []
    ensures Objects(CommentStmts(m, country, postId, replyOf, gif, mentioned, limited, linked, tl), HasTag)
         == TagNodes(m.tags, tl)
  {
    CommentLinksPred(m, country, postId, replyOf, gif, mentioned, limited, linked, tl, LocatedIn);
    CommentLinksFacts(m, country, postId, replyOf, mentioned, limited, linked, tl, LocatedIn);
    CommentLinksPred(m, country, postId, replyOf, gif, mentioned, limited, linked, tl, HasTag);
    CommentLinksFacts(m, country, postId, replyOf, mentioned, limited, linked, tl, HasTag);
  }

  /** The comment's block: opened by its first piece and closed by either branch of its close. */
  lemma CommentBlockBalanced(m: MessageFields, gif: JavaString, tl: TurtleLookups)
    ensures Balanced(CommentHead(m, tl) + CommentBody(m, gif))
  {
    var head := CommentHead(m, tl);
    var body := CommentBody(m, gif);
    assert head == [head[0]] + head[1..];
    assert Continuing(head[1..]);
    assert [head[0]] + head[1..] + body == [head[0]] + (head[1..] + body);
    ScanCons(head[0], head[1..] + body, false);
    ScanContinuing(head[1..], body);
    if m.content == "" {
      ScanCons(body[0], [], true);
      assert [body[0]] + [] == body;
    } else {
      assert body == [body[0]] + ([body[1]] + []);
      ScanCons(body[0], [body[1]] + [], true);
      ScanCons(body[1], [], true);
    }
  }

  /** Whichever branch the content takes, the comment's block is closed and its statements are well formed. */
  lemma CommentBalanced(m: MessageFields, country: Option<int>, postId: int, replyOf: int, gif: JavaString,
                        mentioned: bool, limited: bool, linked: bool, tl: TurtleLookups)
    ensures Balanced(CommentStmts(m, country, postId, replyOf, gif, mentioned, limited, linked, tl))
  {
    var links := CommentLinks(m, country, postId, replyOf, mentioned, limited, linked, tl);
    CommentLinksFacts(m, country, postId, replyOf, mentioned, limited, linked, tl, RdfType);
    AllSpoBalanced(links);
    CommentBlockBalanced(m, gif, tl);
    BalancedAppend(CommentHead(m, tl) + CommentBody(m, gif), links);
  }

  // ---------------------------------------------------------------------------
  // serialize(ForumMembership) and serialize(Like)

  /** `serialize(ForumMembership)` with counter value `n`: the forum's member link, then the membership's block. */
  function MembershipStmts(fm: ForumMembership, n: int, tl: TurtleLookups): seq<Stmt>
  {
    var membership := MembershipUri(tl.formId(n));
    [Spo(ForumUri(fm.forumId), HasMember, membership),
     Triple(true, false, membership, HasPerson, PersonUri(fm.person.accountId)),
     Triple(false, true, membership, JoinDate, Typed(tl.formatDateTime(fm.creationDate), XsdDateTime))]
  }

  /**
   * A membership is a resource numbered by the counter: the forum links to it,
   * it names the member and the join date, and its block is closed.
   */
  lemma MembershipShape(fm: ForumMembership, n: int, tl: TurtleLookups)
    ensures Balanced(MembershipStmts(fm, n, tl))
    ensures Objects(MembershipStmts(fm, n, tl), HasMember) == [MembershipUri(tl.formId(n))]
    ensures Objects(MembershipStmts(fm, n, tl), HasPerson) == [PersonUri(fm.person.accountId)]
    ensures Objects(MembershipStmts(fm, n, tl), JoinDate) == [Typed(tl.formatDateTime(fm.creationDate), XsdDateTime)]
  {
    var ms := MembershipStmts(fm, n, tl);
    SpoThenBlock(ms[0], ms[1], ms[2]);
    ObjectsThree(ms[0], ms[1], ms[2], HasMember);
    ObjectsThree(ms[0], ms[1], ms[2], HasPerson);
    ObjectsThree(ms[0], ms[1], ms[2], JoinDate);
  }

  /** `serialize(Like)` with counter value `n`: the person's like link, then the like's block. */
  function LikeStmts(l: Like, n: int, tl: TurtleLookups): seq<Stmt>
  {
    var like := LikeUri(tl.formId(n));
    [Spo(PersonUri(l.user), Likes, like)]
    + (if LikesPostTable(l) then [Triple(true, false, like, HasPost, PostUri(l.messageId))]
       else [Triple(true, false, like, HasComment, CommentUri(l.messageId))])
    + [Triple(false, true, like, CreationDate, Typed(tl.formatDateTime(l.date), XsdDateTime))]
  }

  /**
   * A like of a post or photo points at the post with `hasPost`, any other
   * like at the comment with `hasComment`, never both; its block is closed.
   */
  lemma LikeShape(l: Like, n: int, tl: TurtleLookups)
    ensures Balanced(LikeStmts(l, n, tl))
    ensures Objects(LikeStmts(l, n, tl), Likes) == [LikeUri(tl.formId(n))]
    ensures Objects(LikeStmts(l, n, tl), HasPost) == if LikesPostTable(l) then [PostUri(l.messageId)] else []
    ensures Objects(LikeStmts(l, n, tl), HasComment) == if LikesPostTable(l) then [] else [CommentUri(l.messageId)]
  {
    var ls := LikeStmts(l, n, tl);
    assert ls == [ls[0], ls[1], ls[2]];
    SpoThenBlock(ls[0], ls[1], ls[2]);
    ObjectsThree(ls[0], ls[1], ls[2], Likes);
    ObjectsThree(ls[0], ls[1], ls[2], HasPost);
    ObjectsThree(ls[0], ls[1], ls[2], HasComment);
  }

  /** The counter values `0, 1, …, n-1` in order: those used since the last `reset`. */
  ghost predicate Numbered(ns: seq<int>)
  {
    forall i :: 0 <= i < |ns| ==> ns[i] == i
  }

  /** Numbers handed out in one epoch are distinct and strictly increasing. */
  lemma NumberedIncreasing(ns: seq<int>, i: int, j: int)
    requires Numbered(ns) && 0 <= i < j < |ns|
    ensures ns[i] < ns[j]
  {
  }

  /** Appends a chunk to the only writer. */
  function Emitted(ws: seq<TurtleWriter>, stmts: seq<Stmt>): (r: seq<TurtleWriter>)
    requires |ws| == NumFiles
    ensures |r| == NumFiles && r[SocialNetwork].fileName == ws[SocialNetwork].fileName
    ensures r[SocialNetwork].chunks == ws[SocialNetwork].chunks + [Statements(stmts)]
  {
    [ws[SocialNetwork].(chunks := ws[SocialNetwork].chunks + [Statements(stmts)])]
  }

  class TurtlePersonActivitySerializer {
    /** One writer per file; `null` until `initialize`. */
    var writers: array?<TurtleWriter>
    /** The counters that number memberships and likes since the last `reset`. */
    var membershipId: int
    var likeId: int
    /** The counter values handed out since the last `reset`, in order. */
    ghost var membershipNumbers: seq<int>
    ghost var likeNumbers: seq<int>
    const lookups: TurtleLookups

    /** Each counter is the number of entities it numbered since the last `reset`, each numbered in turn. */
    ghost predicate Counted()
      reads this
    {
      membershipId == |membershipNumbers| && Numbered(membershipNumbers)
      && likeId == |likeNumbers| && Numbered(likeNumbers)
    }

    ghost predicate Valid()
      reads this
    {
      Counted() && writers != null && writers.Length == NumFiles
    }

    constructor (lookups: TurtleLookups)
      ensures Counted() && writers == null && membershipId == 0 && likeId == 0 && this.lookups == lookups
    {
      writers := null;
      membershipId := 0;
      likeId := 0;
      membershipNumbers := [];
      likeNumbers := [];
      this.lookups := lookups;
    }

    /** `initialize(conf, reducerId)`: one writer per file, each opened with the namespace prefixes. */
    method Initialize(reducerId: int)
      requires Counted()
      modifies this`writers
      ensures Valid() && fresh(writers)
      ensures forall i :: 0 <= i < NumFiles ==>
                writers[i] == TurtleWriter(SocialNetworkName + "_" + NumberText(reducerId), [Namespaces, StaticNamespaces])
    {
      var w := new TurtleWriter[NumFiles](i => TurtleWriter(SocialNetworkName + "_" + NumberText(reducerId), []));
      for i := 0 to NumFiles
        invariant forall j :: 0 <= j < i ==>
                    w[j] == TurtleWriter(SocialNetworkName + "_" + NumberText(reducerId), [Namespaces, StaticNamespaces])
        invariant forall j :: i <= j < NumFiles ==> w[j] == TurtleWriter(SocialNetworkName + "_" + NumberText(reducerId), [])
      {
        w[i] := w[i].(chunks := w[i].chunks + [Namespaces]);
        w[i] := w[i].(chunks := w[i].chunks + [StaticNamespaces]);
      }
      writers := w;
    }

    /** `writers[SOCIAL_NETWORK.ordinal()].write(result.toString())`. */
    method Write(result: seq<Stmt>)
      requires Valid()
      modifies writers
      ensures writers[..] == Emitted(old(writers[..]), result)
    {
      writers[SocialNetwork] := writers[SocialNetwork].(chunks := writers[SocialNetwork].chunks + [Statements(result)]);
      assert writers[..] == [writers[SocialNetwork]];
    }

    /**
     * `serialize(Comment)`; the three draws of the unseeded `Random` are given
     * as whether each passed its threshold. The counters are not touched.
     */
    method SerializeComment(c: Comment, mentioned: bool, limited: bool, linked: bool)
      requires Valid()
      modifies writers
      ensures Valid()
      ensures writers[..] == Emitted(old(writers[..]),
                CommentStmts(c.fields, c.country, c.postId, c.replyOf, c.gif, mentioned, limited, linked, lookups))
    {
      var result := CommentBlock(c);
      result := AppendCommentTriples(c, result, mentioned, limited, linked);
      Write(result);
    }

    /** The comment's abbreviated block: the gif when the content is empty, else the content and its length. */
    method CommentBlock(c: Comment) returns (result: seq<Stmt>)
      ensures result == CommentHead(c.fields, lookups) + CommentBody(c.fields, c.gif)
    {
      var m := c.fields;
      var prefix := CommentUri(m.messageId);
      result := [Triple(true, false, prefix, RdfType, CommentClass)];
      result := result + [Triple(false, false, prefix, Id, Typed(NumberText(m.messageId), XsdLong))];
      result := result + [Triple(false, false, prefix, CreationDate,
                                 Typed(lookups.formatDateTime(m.creationDate), XsdDateTime))];
      result := result + [Triple(false, false, prefix, IpAddress, Literal(Some(lookups.ipText(m.ipAddress))))];
      result := result + [Triple(false, false, prefix, Browser, Literal(Some(lookups.browserName(m.browserId))))];
      if m.content == "" {
        result := result + [Triple(false, true, prefix, HasGif, Literal(c.Gif()))];
      } else {
        result := result + [Triple(false, false, prefix, Content, Literal(Some(m.content)))];
        result := result + [Triple(false, true, prefix, Length, Typed(NumberText(|m.content|), XsdInt))];
      }
    }

    /** The comment's complete triples, appended to `block`: reply, place, creator, drawn triples, tags. */
    method AppendCommentTriples(c: Comment, block: seq<Stmt>, mentioned: bool, limited: bool, linked: bool)
      returns (result: seq<Stmt>)
      ensures result == block + CommentLinks(c.fields, c.country, c.postId, c.replyOf, mentioned, limited, linked, lookups)
    {
      var m := c.fields;
      var prefix := CommentUri(m.messageId);
      result := block;
      var replied := if c.ReplyOf() == c.PostId() then PostUri(c.PostId()) else CommentUri(c.ReplyOf());
      result := result + [Spo(prefix, ReplyOf, replied)];
      if c.country.Some? {
        result := result + [Spo(prefix, LocatedIn, Dbpedia(lookups.placeName(c.country.value)))];
      }
      result := result + [Spo(prefix, HasCreator, PersonUri(m.author.accountId))];
      ghost var fixed := result;
      if mentioned {
        result := result + [Spo(prefix, HasMentioned, PersonUri(m.author.accountId))];
      }
      if limited {
        result := result + [Spo(prefix, HasVisibility, Literal(Some("limited")))];
      }
      if linked {
        result := result + [Spo(prefix, HasLink, Literal(Some("link")))];
      }
      assert result == fixed + DrawnStmts(prefix, m.author, mentioned, limited, linked);
      ghost var drawn := result;
      result := AppendTags(prefix, m.tags, result);
      CommentAssembled(block, fixed, drawn, result, m, c.country, c.postId, c.replyOf, mentioned, limited, linked, lookups);
    }

    /** The tag loop: one `hasTag` triple per tag. */
    method AppendTags(prefix: Node, tags: seq<int>, start: seq<Stmt>) returns (result: seq<Stmt>)
      ensures result == start + TagStmts(prefix, tags, lookups)
    {
      result := start;
      for i := 0 to |tags|
        invariant result == start + TagStmts(prefix, tags[..i], lookups)
      {
        assert tags[..i + 1][..i] == tags[..i];
        result := result + [Spo(prefix, HasTag, SnTag(lookups.tagName(tags[i])))];
      }
      assert tags[..|tags|] == tags;
    }

    /** `serialize(ForumMembership)`: numbered by `membershipId`, which then moves on by one. */
    method SerializeMembership(fm: ForumMembership)
      requires Valid()
      modifies writers, this`membershipId, this`membershipNumbers
      ensures Valid() && likeId == old(likeId)
      ensures membershipId == old(membershipId) + 1
      ensures membershipNumbers == old(membershipNumbers) + [old(membershipId)]
      ensures writers[..] == Emitted(old(writers[..]), MembershipStmts(fm, old(membershipId), lookups))
    {
      var membership := MembershipUri(lookups.formId(membershipId));
      var forum := ForumUri(fm.forumId);
      var result := [Spo(forum, HasMember, membership)];
      result := result + [Triple(true, false, membership, HasPerson, PersonUri(fm.person.accountId))];
      result := result + [Triple(false, true, membership, JoinDate,
                                 Typed(lookups.formatDateTime(fm.creationDate), XsdDateTime))];
      assert result == MembershipStmts(fm, membershipId, lookups);
      membershipNumbers := membershipNumbers + [membershipId];
      membershipId := membershipId + 1;
      Write(result);
    }

    /** `serialize(Like)`: numbered by `likeId`, which then moves on by one. */
    method SerializeLike(l: Like)
      requires Valid()
      modifies writers, this`likeId, this`likeNumbers
      ensures Valid() && membershipId == old(membershipId)
      ensures likeId == old(likeId) + 1
      ensures likeNumbers == old(likeNumbers) + [old(likeId)]
      ensures writers[..] == Emitted(old(writers[..]), LikeStmts(l, old(likeId), lookups))
    {
      var like := LikeUri(lookups.formId(likeId));
      var result := [Spo(PersonUri(l.user), Likes, like)];
      if l.likeType == POST || l.likeType == PHOTO {
        result := result + [Triple(true, false, like, HasPost, PostUri(l.messageId))];
      } else {
        result := result + [Triple(true, false, like, HasComment, CommentUri(l.messageId))];
      }
      result := result + [Triple(false, true, like, CreationDate, Typed(lookups.formatDateTime(l.date), XsdDateTime))];
      likeNumbers := likeNumbers + [likeId];
      likeId := likeId + 1;
      Write(result);
    }

    /** `reset()`: both counters start again from 0; what was written stays. */
    method Reset()
      modifies this`likeId, this`membershipId, this`likeNumbers, this`membershipNumbers
      ensures Counted() && likeId == 0 && membershipId == 0
    {
      likeId := 0;
      membershipId := 0;
      likeNumbers := [];
      membershipNumbers := [];
    }
  }

  /** The buffer `serialize(Comment)` builds, checkpoint by checkpoint, is the comment's statement list. */
  lemma CommentAssembled(block: seq<Stmt>, fixed: seq<Stmt>, drawn: seq<Stmt>, result: seq<Stmt>,
                         m: MessageFields, country: Option<int>, postId: int, replyOf: int,
                         mentioned: bool, limited: bool, linked: bool, tl: TurtleLookups)
    requires fixed == block + [Spo(CommentUri(m.messageId), ReplyOf, ReplyTarget(postId, replyOf))]
                      + PlaceStmts(CommentUri(m.messageId), country, tl)
                      + [Spo(CommentUri(m.messageId), HasCreator, PersonUri(m.author.accountId))]
    requires drawn == fixed + DrawnStmts(CommentUri(m.messageId), m.author, mentioned, limited, linked)
    requires result == drawn + TagStmts(CommentUri(m.messageId), m.tags, tl)
    ensures result == block + CommentLinks(m, country, postId, replyOf, mentioned, limited, linked, tl)
  {
  }
}
