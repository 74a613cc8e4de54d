/**
 * `CSVPersonActivitySerializer`: writes every forum, message, membership and
 * like as `|`-separated rows into seventeen files, one per entity or
 * relation, each opened with a header row. Each file's writer is an element
 * of `writers`, indexed by the file's ordinal; a row is the list of field
 * values (`None` is a Java `null`, which the writer receives as is).
 */
module CsvActivity {
  import opened Wrappers
  import opened Entities
  import opened JavaText
  import opened Comments

  /** `FileNames`, in declaration (ordinal) order. */
  datatype FileName =
    | ForumTable | ForumContainerOfPost | ForumHasMemberPerson | ForumHasModeratorPerson | ForumHasTagTag
    | PersonLikesPost | PersonLikesComment
    | PostTable | PostHasCreatorPerson | PostHasTagTag | PostIsLocatedInPlace
    | CommentTable | CommentHasCreatorPerson | CommentHasTagTag | CommentIsLocatedInPlace
    | CommentReplyOfPost | CommentReplyOfComment

  const NumFiles: nat := 17

  function Ordinal(f: FileName): (i: nat)
    ensures i < NumFiles
  {
    match f
    case ForumTable => 0
    case ForumContainerOfPost => 1
    case ForumHasMemberPerson => 2
    case ForumHasModeratorPerson => 3
    case ForumHasTagTag => 4
    case PersonLikesPost => 5
    case PersonLikesComment => 6
    case PostTable => 7
    case PostHasCreatorPerson => 8
    case PostHasTagTag => 9
    case PostIsLocatedInPlace => 10
    case CommentTable => 11
    case CommentHasCreatorPerson => 12
    case CommentHasTagTag => 13
    case CommentIsLocatedInPlace => 14
    case CommentReplyOfPost => 15
    case CommentReplyOfComment => 16
  }

  /** `FileNames.values()[i]`. */
  function FileAt(i: nat): (f: FileName)
    requires i < NumFiles
    ensures Ordinal(f) == i
  {
    [ForumTable, ForumContainerOfPost, ForumHasMemberPerson, ForumHasModeratorPerson, ForumHasTagTag,
     PersonLikesPost, PersonLikesComment,
     PostTable, PostHasCreatorPerson, PostHasTagTag, PostIsLocatedInPlace,
     CommentTable, CommentHasCreatorPerson, CommentHasTagTag, CommentIsLocatedInPlace,
     CommentReplyOfPost, CommentReplyOfComment][i]
  }

  /** Ordinals index the files one to one, so each file has a writer of its own. */
  lemma OrdinalInjective(f: FileName, g: FileName)
    ensures Ordinal(f) == Ordinal(g) ==> f == g
    ensures FileAt(Ordinal(f)) == f
  {
  }

  /** `FileNames.toString()`. */
  function Name(f: FileName): string
  {
    match f
    case ForumTable => "forum"
    case ForumContainerOfPost => "forum_containerOf_post"
    case ForumHasMemberPerson => "forum_hasMember_person"
    case ForumHasModeratorPerson => "forum_hasModerator_person"
    case ForumHasTagTag => "forum_hasTag_tag"
    case PersonLikesPost => "person_likes_post"
    case PersonLikesComment => "person_likes_comment"
    case PostTable => "post"
    case PostHasCreatorPerson => "post_hasCreator_person"
    case PostHasTagTag => "post_hasTag_tag"
    case PostIsLocatedInPlace => "post_isLocatedIn_place"
    case CommentTable => "comment"
    case CommentHasCreatorPerson => "comment_hasCreator_person"
    case CommentHasTagTag => "comment_hasTag_tag"
    case CommentIsLocatedInPlace => "comment_isLocatedIn_place"
    case CommentReplyOfPost => "comment_replyOf_post"
    case CommentReplyOfComment => "comment_replyOf_comment"
  }

  /** Distinct files have distinct names, so no two writers share a file. */
  lemma NamesDistinct(f: FileName, g: FileName)
    ensures Name(f) == Name(g) ==> f == g
  {
  }

  /** The column names `initialize` writes as each file's first row. */
  function Header(f: FileName): seq<string>
  {
    match f
    case ForumTable => ["id", "title", "creationDate"]
    case ForumContainerOfPost => ["Forum.id", "Post.id"]
    case ForumHasMemberPerson => ["Forum.id", "Person.id", "joinDate"]
    case ForumHasModeratorPerson => ["Forum.id", "Person.id"]
    case ForumHasTagTag => ["Forum.id", "Tag.id"]
    case PersonLikesPost => ["Person.id", "Post.id", "creationDate"]
    case PersonLikesComment => ["Person.id", "Comment.id", "creationDate"]
    case PostTable => ["id", "imageFile", "creationDate", "locationIP", "browserUsed", "language", "content", "length"]
    case PostHasCreatorPerson => ["Post.id", "Person.id"]
    case PostHasTagTag => ["Post.id", "Tag.id"]
    case PostIsLocatedInPlace => ["Post.id", "Place.id"]
    case CommentTable => ["id", "creationDate", "locationIP", "browserUsed", "content", "gifFile", "length"]
    case CommentHasCreatorPerson => ["Comment.id", "Person.id"]
    case CommentHasTagTag => ["Comment.id", "Tag.id"]
    case CommentIsLocatedInPlace => ["Comment.id", "Place.id"]
    case CommentReplyOfPost => ["Comment.id", "Post.id"]
    case CommentReplyOfComment => ["Comment.id", "Comment.id"]
  }

  /** One row: the `arguments` list handed to `writeEntry`. */
  type Row = seq<JavaString>

  function HeaderRow(f: FileName): (r: Row)
    ensures |r| == |Header(f)|
    ensures forall k :: 0 <= k < |r| ==> r[k] == Some(Header(f)[k])
  {
    seq(|Header(f)|, k requires 0 <= k < |Header(f)| => Some(Header(f)[k]))
  }

  /** A non-null field value. */
  function Text(s: string): JavaString
  {
    Some(s)
  }

  /** `Long.toString` / `Integer.toString` as a field value. */
  function Num(n: int): JavaString
  {
    Some(NumberText(n))
  }

  /** One `writeEntry` call: the row and the file it goes to. */
  datatype Write = Write(file: FileName, row: Row)

  /** Every row has exactly as many fields as its file's header has columns. */
  ghost predicate Aligned(ws: seq<Write>)
  {
    forall k :: 0 <= k < |ws| ==> |ws[k].row| == |Header(ws[k].file)|
  }

  /** The rows of `ws` that go to file `f`, in order. */
  function RowsFor(ws: seq<Write>, f: FileName): seq<Row>
  {
    if ws == [] then []
    else RowsFor(ws[..|ws| - 1], f) + (if ws[|ws| - 1].file == f then [ws[|ws| - 1].row] else [])
  }

  lemma {:induction false} RowsForAppend(a: seq<Write>, b: seq<Write>, f: FileName)
    ensures RowsFor(a + b, f) == RowsFor(a, f) + RowsFor(b, f)
    decreases |b|
  {
    if b == [] {
      assert a + b == a;
    } else {
      assert (a + b)[..|a + b| - 1] == a + b[..|b| - 1];
      RowsForAppend(a, b[..|b| - 1], f);
    }
  }

  /** The rows of a single write. */
  lemma RowsForOne(w: Write, f: FileName)
    ensures RowsFor([w], f) == if w.file == f then [w.row] else []
  {
    assert [w][..0] == [];
  }

  /** One row `[id, tag]` per tag, in the tags' order: the tag loops of every `serialize`. */
  function TagWrites(id: int, tags: seq<int>, file: FileName): (ws: seq<Write>)
    ensures |ws| == |tags|
  {
    if tags == [] then []
    else TagWrites(id, tags[..|tags| - 1], file) + [Write(file, [Num(id), Num(tags[|tags| - 1])])]
  }

  lemma TagWritesSnoc(id: int, tags: seq<int>, t: int, file: FileName)
    ensures TagWrites(id, tags + [t], file) == TagWrites(id, tags, file) + [Write(file, [Num(id), Num(t)])]
  {
    assert (tags + [t])[..|tags|] == tags;
  }

  /** A file receives none of the rows of writes that all go elsewhere. */
  lemma {:induction false} RowsForNone(ws: seq<Write>, f: FileName)
    requires forall k :: 0 <= k < |ws| ==> ws[k].file != f
    ensures RowsFor(ws, f) == []
    decreases |ws|
  {
    if ws != [] {
      RowsForNone(ws[..|ws| - 1], f);
    }
  }

  /** The `[id, tag]` rows of the tags, in order. */
  function TagRows(id: int, tags: seq<int>): (rows: seq<Row>)
    ensures |rows| == |tags|
  {
    if tags == [] then [] else TagRows(id, tags[..|tags| - 1]) + [[Num(id), Num(tags[|tags| - 1])]]
  }

  /** The tag file receives exactly the tag rows, in order; other files receive none of them. */
  lemma {:induction false} TagWritesRouting(id: int, tags: seq<int>, file: FileName, f: FileName)
    ensures RowsFor(TagWrites(id, tags, file), f) == if f == file then TagRows(id, tags) else []
    decreases |tags|
  {
    if tags != [] {
      var front := tags[..|tags| - 1];
      var ws := TagWrites(id, tags, file);
      assert ws[..|ws| - 1] == TagWrites(id, front, file);
      TagWritesRouting(id, front, file, f);
    }
  }

  /** The forum row: id, title, creation date. */
  function ForumRow(forum: Forum, lk: Lookups): Write
  {
    Write(ForumTable, [Num(forum.id), Text(forum.title), Text(lk.formatDateTime(forum.creationDate))])
  }

  /** `serialize(Forum)`: the forum row, its moderator, then one row per tag. */
  function ForumWrites(forum: Forum, lk: Lookups): seq<Write>
  {
    [ForumRow(forum, lk), Write(ForumHasModeratorPerson, [Num(forum.id), Num(forum.moderator.accountId)])]
    + TagWrites(forum.id, forum.tags, ForumHasTagTag)
  }

  /** The `isLocatedIn` row, present only when the country is known. */
  function PlaceWrites(id: int, country: Option<int>, file: FileName): seq<Write>
  {
    if country.Some? then [Write(file, [Num(id), Num(country.value)])] else []
  }

  /**
   * The shape every message serialisation shares: its leading rows, the
   * optional place row, some fixed link rows, then one row per tag.
   */
  function MessageWrites(head: seq<Write>, id: int, country: Option<int>, placeFile: FileName, links: seq<Write>,
                         tags: seq<int>, tagFile: FileName): seq<Write>
  {
    head + PlaceWrites(id, country, placeFile) + links + TagWrites(id, tags, tagFile)
  }

  /** The post row: an empty image file, then date, IP, browser, language, content and its length. */
  function PostRow(p: Post, lk: Lookups): Write
  {
    var m := p.fields;
    Write(PostTable, [Num(m.messageId), Text(""), Text(lk.formatDateTime(m.creationDate)), Text(lk.ipText(m.ipAddress)),
                      Text(lk.browserName(m.browserId)), Text(lk.languageName(p.language)), Text(m.content),
                      Num(|m.content|)])
  }

  /** The photo row: the photo's content is its image file; no language, no text, length 0. */
  function PhotoRow(p: Photo, lk: Lookups): Write
  {
    var m := p.fields;
    Write(PostTable, [Num(m.messageId), Text(m.content), Text(lk.formatDateTime(m.creationDate)),
                      Text(lk.ipText(m.ipAddress)), Text(lk.browserName(m.browserId)), Text(""), Text(""), Num(0)])
  }

  /** The creator and container rows shared by posts and photos. */
  function PostLinks(m: MessageFields): seq<Write>
  {
    [Write(PostHasCreatorPerson, [Num(m.messageId), Num(m.author.accountId)]),
     Write(ForumContainerOfPost, [Num(m.forumId), Num(m.messageId)])]
  }

  /** `serialize(Post)`. */
  function PostWrites(p: Post, lk: Lookups): seq<Write>
  {
    MessageWrites([PostRow(p, lk)], p.fields.messageId, p.country, PostIsLocatedInPlace, PostLinks(p.fields),
                  p.fields.tags, PostHasTagTag)
  }

  /** `serialize(Photo)`: routed exactly like a post. */
  function PhotoWrites(p: Photo, lk: Lookups): seq<Write>
  {
    MessageWrites([PhotoRow(p, lk)], p.fields.messageId, p.country, PostIsLocatedInPlace, PostLinks(p.fields),
                  p.fields.tags, PostHasTagTag)
  }

  /** The comment row: the gif is written as is, possibly null. */
  function CommentRow(m: MessageFields, gif: JavaString, lk: Lookups): Write
  {
    Write(CommentTable, [Num(m.messageId), Text(lk.formatDateTime(m.creationDate)), Text(lk.ipText(m.ipAddress)),
                         Text(lk.browserName(m.browserId)), Text(m.content), gif, Num(|m.content|)])
  }

  /** The single `replyOf` row: to the post file when the parent is the thread root, else to the comment file. */
  function ReplyWrite(id: int, postId: int, replyOf: int): Write
  {
    if replyOf == postId then Write(CommentReplyOfPost, [Num(id), Num(postId)])
    else Write(CommentReplyOfComment, [Num(id), Num(replyOf)])
  }

  function CommentCreator(m: MessageFields): Write
  {
    Write(CommentHasCreatorPerson, [Num(m.messageId), Num(m.author.accountId)])
  }

  /** `serialize(Comment)`: the comment row, the reply row, place, creator, tags. */
  function CommentWrites(m: MessageFields, country: Option<int>, postId: int, replyOf: int, gif: JavaString,
                         lk: Lookups): seq<Write>
  {
    MessageWrites([CommentRow(m, gif, lk), ReplyWrite(m.messageId, postId, replyOf)], m.messageId, country,
                  CommentIsLocatedInPlace, [CommentCreator(m)], m.tags, CommentHasTagTag)
  }

  /** `serialize(ForumMembership)`. */
  function MembershipWrites(fm: ForumMembership, lk: Lookups): seq<Write>
  {
    [Write(ForumHasMemberPerson, [Num(fm.forumId), Num(fm.person.accountId), Text(lk.formatDateTime(fm.creationDate))])]
  }

  /** The like row: user, message, date. */
  function LikeRow(l: Like, lk: Lookups): Row
  {
    [Num(l.user), Num(l.messageId), Text(lk.formatDateTime(l.date))]
  }

  /** `serialize(Like)`: one row, to the post-likes file for posts and photos, else to the comment-likes file. */
  function LikeWrites(l: Like, lk: Lookups): seq<Write>
  {
    if LikesPostTable(l) then [Write(PersonLikesPost, LikeRow(l, lk))] else [Write(PersonLikesComment, LikeRow(l, lk))]
  }

  // ---------------------------------------------------------------------------
  // What lands in each column

  /** A post row fills the post table's columns: id, no image file, language, content and content length. */
  lemma PostRowColumns(p: Post, lk: Lookups)
    ensures PostRow(p, lk).file == PostTable && |PostRow(p, lk).row| == |Header(PostTable)|
    ensures PostRow(p, lk).row[0] == Num(p.fields.messageId) && PostRow(p, lk).row[1] == Text("")
    ensures PostRow(p, lk).row[5] == Text(lk.languageName(p.language))
    ensures PostRow(p, lk).row[6] == Text(p.fields.content) && PostRow(p, lk).row[7] == Num(|p.fields.content|)
  {
  }

  /**
   * A photo row fills the same columns as a post row, with the photo's content
   * under `imageFile`, empty `language` and `content`, and length 0.
   */
  lemma PhotoRowColumns(photo: Photo, lk: Lookups)
    ensures PhotoRow(photo, lk).file == PostTable && |PhotoRow(photo, lk).row| == |Header(PostTable)|
    ensures PhotoRow(photo, lk).row[0] == Num(photo.fields.messageId)
    ensures PhotoRow(photo, lk).row[1] == Text(photo.fields.content)
    ensures PhotoRow(photo, lk).row[5] == Text("") && PhotoRow(photo, lk).row[6] == Text("")
    ensures PhotoRow(photo, lk).row[7] == Num(0)
  {
  }

  /** A comment row fills the comment table's columns; the `gifFile` column holds the gif as is, null included. */
  lemma CommentRowColumns(m: MessageFields, gif: JavaString, lk: Lookups)
    ensures CommentRow(m, gif, lk).file == CommentTable && |CommentRow(m, gif, lk).row| == |Header(CommentTable)|
    ensures CommentRow(m, gif, lk).row[0] == Num(m.messageId) && CommentRow(m, gif, lk).row[4] == Text(m.content)
    ensures CommentRow(m, gif, lk).row[5] == gif && CommentRow(m, gif, lk).row[6] == Num(|m.content|)
  {
  }

  // ---------------------------------------------------------------------------
  // Every row matches its file's header

  lemma AlignedConcat(a: seq<Write>, b: seq<Write>)
    requires Aligned(a) && Aligned(b)
    ensures Aligned(a + b)
  {
    forall k | 0 <= k < |a + b|
      ensures |(a + b)[k].row| == |Header((a + b)[k].file)|
    {
      if k >= |a| {
        assert (a + b)[k] == b[k - |a|];
      }
    }
  }

  /** A single write whose row fits its file's header. */
  lemma AlignedOne(w: Write)
    requires |w.row| == |Header(w.file)|
    ensures Aligned([w])
  {
  }

  lemma AlignedTwo(v: Write, w: Write)
    requires |v.row| == |Header(v.file)| && |w.row| == |Header(w.file)|
    ensures Aligned([v, w])
  {
  }

  lemma ReplyAligned(id: int, postId: int, replyOf: int)
    ensures |ReplyWrite(id, postId, replyOf).row| == |Header(ReplyWrite(id, postId, replyOf).file)|
  {
  }

  lemma {:induction false} TagsAligned(id: int, tags: seq<int>, file: FileName)
    requires |Header(file)| == 2
    ensures Aligned(TagWrites(id, tags, file))
    decreases |tags|
  {
    if tags != [] {
      var last := Write(file, [Num(id), Num(tags[|tags| - 1])]);
      TagsAligned(id, tags[..|tags| - 1], file);
      AlignedConcat(TagWrites(id, tags[..|tags| - 1], file), [last]);
    }
  }

  lemma MessageAligned(head: seq<Write>, id: int, country: Option<int>, placeFile: FileName, links: seq<Write>,
                       tags: seq<int>, tagFile: FileName)
    requires Aligned(head) && Aligned(links)
    requires |Header(placeFile)| == 2 && |Header(tagFile)| == 2
    ensures Aligned(MessageWrites(head, id, country, placeFile, links, tags, tagFile))
  {
    var place := PlaceWrites(id, country, placeFile);
    TagsAligned(id, tags, tagFile);
    AlignedConcat(head, place);
    AlignedConcat(head + place, links);
    AlignedConcat(head + place + links, TagWrites(id, tags, tagFile));
  }

  /** Every row `serialize(Forum)` writes has as many fields as its file's header. */
  lemma ForumRowsMatchHeaders(forum: Forum, lk: Lookups)
    ensures Aligned(ForumWrites(forum, lk))
  {
    var head := [ForumRow(forum, lk), Write(ForumHasModeratorPerson, [Num(forum.id), Num(forum.moderator.accountId)])];
    TagsAligned(forum.id, forum.tags, ForumHasTagTag);
    AlignedConcat(head, TagWrites(forum.id, forum.tags, ForumHasTagTag));
  }

  /** The rows of `serialize(ForumMembership)` and `serialize(Like)` have as many fields as their file's header. */
  lemma MembershipAndLikeRowsMatchHeaders(fm: ForumMembership, l: Like, lk: Lookups)
    ensures Aligned(MembershipWrites(fm, lk))
    ensures Aligned(LikeWrites(l, lk))
  {
    AlignedOne(MembershipWrites(fm, lk)[0]);
    AlignedOne(LikeWrites(l, lk)[0]);
  }

  /** Every row `serialize(Post)` and `serialize(Photo)` write has as many fields as its file's header. */
  lemma PostAndPhotoRowsMatchHeaders(p: Post, photo: Photo, lk: Lookups)
    ensures Aligned(PostWrites(p, lk))
    ensures Aligned(PhotoWrites(photo, lk))
  {
    PostRowColumns(p, lk);
    PostShapeAligned(PostRow(p, lk), p.fields, p.country);
    PhotoRowColumns(photo, lk);
    PostShapeAligned(PhotoRow(photo, lk), photo.fields, photo.country);
  }

  lemma PostShapeAligned(head: Write, m: MessageFields, country: Option<int>)
    requires |head.row| == |Header(head.file)|
    ensures Aligned(MessageWrites([head], m.messageId, country, PostIsLocatedInPlace, PostLinks(m), m.tags, PostHasTagTag))
  {
    AlignedOne(head);
    AlignedTwo(PostLinks(m)[0], PostLinks(m)[1]);
    assert PostLinks(m) == [PostLinks(m)[0], PostLinks(m)[1]];
    MessageAligned([head], m.messageId, country, PostIsLocatedInPlace, PostLinks(m), m.tags, PostHasTagTag);
  }

  /** Every row `serialize(Comment)` writes has as many fields as its file's header. */
  lemma CommentRowsMatchHeaders(m: MessageFields, country: Option<int>, postId: int, replyOf: int, gif: JavaString,
                                lk: Lookups)
    ensures Aligned(CommentWrites(m, country, postId, replyOf, gif, lk))
  {
    var head := [CommentRow(m, gif, lk), ReplyWrite(m.messageId, postId, replyOf)];
    CommentRowColumns(m, gif, lk);
    ReplyAligned(m.messageId, postId, replyOf);
    AlignedTwo(CommentRow(m, gif, lk), ReplyWrite(m.messageId, postId, replyOf));
    AlignedOne(CommentCreator(m));
    MessageAligned(head, m.messageId, country, CommentIsLocatedInPlace, [CommentCreator(m)], m.tags, CommentHasTagTag);
  }

  // ---------------------------------------------------------------------------
  // What each serialisation contributes to each file

  lemma RowsForParts(a: seq<Write>, b: seq<Write>, c: seq<Write>, d: seq<Write>, f: FileName)
    ensures RowsFor(a + b + c + d, f) == RowsFor(a, f) + RowsFor(b, f) + RowsFor(c, f) + RowsFor(d, f)
  {
    RowsForAppend(a + b + c, d, f);
    RowsForAppend(a + b, c, f);
    RowsForAppend(a, b, f);
  }

  /** The rows of two writes. */
  lemma RowsForTwo(v: Write, w: Write, f: FileName)
    ensures RowsFor([v, w], f) == (if v.file == f then [v.row] else []) + (if w.file == f then [w.row] else [])
  {
    assert [v, w] == [v] + [w];
    RowsForAppend([v], [w], f);
    RowsForOne(v, f);
    RowsForOne(w, f);
  }

  /** The place row goes to the place file and nowhere else. */
  lemma PlaceRouting(id: int, country: Option<int>, file: FileName, f: FileName)
    ensures RowsFor(PlaceWrites(id, country, file), f)
         == if f == file && country.Some? then [[Num(id), Num(country.value)]] else []
  {
    if country.Some? {
      RowsForOne(Write(file, [Num(id), Num(country.value)]), f);
    }
  }

  /** A message's rows for one file: its head's, its place row, its links', then its tag rows. */
  lemma MessageRows(head: seq<Write>, id: int, country: Option<int>, placeFile: FileName, links: seq<Write>,
                    tags: seq<int>, tagFile: FileName, f: FileName)
    ensures RowsFor(MessageWrites(head, id, country, placeFile, links, tags, tagFile), f)
         == RowsFor(head, f)
            + (if f == placeFile && country.Some? then [[Num(id), Num(country.value)]] else [])
            + RowsFor(links, f)
            + (if f == tagFile then TagRows(id, tags) else [])
  {
    RowsForParts(head, PlaceWrites(id, country, placeFile), links, TagWrites(id, tags, tagFile), f);
    PlaceRouting(id, country, placeFile, f);
    TagWritesRouting(id, tags, tagFile, f);
  }

  /**
   * `serialize(Forum)` writes exactly one forum row, exactly one moderator row
   * and one tag row per tag, in order.
   */
  lemma ForumRouting(forum: Forum, lk: Lookups)
    ensures RowsFor(ForumWrites(forum, lk), ForumTable) == [ForumRow(forum, lk).row]
    ensures RowsFor(ForumWrites(forum, lk), ForumHasModeratorPerson) == [[Num(forum.id), Num(forum.moderator.accountId)]]
    ensures RowsFor(ForumWrites(forum, lk), ForumHasTagTag) == TagRows(forum.id, forum.tags)
  {
    var head := [ForumRow(forum, lk), Write(ForumHasModeratorPerson, [Num(forum.id), Num(forum.moderator.accountId)])];
    var tags := TagWrites(forum.id, forum.tags, ForumHasTagTag);
    ForumFileRows(head, tags, forum.id, forum.tags, ForumTable);
    ForumFileRows(head, tags, forum.id, forum.tags, ForumHasModeratorPerson);
    ForumFileRows(head, tags, forum.id, forum.tags, ForumHasTagTag);
  }

  lemma ForumFileRows(head: seq<Write>, tags: seq<Write>, id: int, tagIds: seq<int>, f: FileName)
    requires |head| == 2 && tags == TagWrites(id, tagIds, ForumHasTagTag)
    ensures RowsFor(head + tags, f)
         == (if head[0].file == f then [head[0].row] else []) + (if head[1].file == f then [head[1].row] else [])
            + (if f == ForumHasTagTag then TagRows(id, tagIds) else [])
  {
    assert head == [head[0], head[1]];
    RowsForTwo(head[0], head[1], f);
    RowsForAppend(head, tags, f);
    TagWritesRouting(id, tagIds, ForumHasTagTag, f);
  }

  /** The creator row goes to the creator file and the container row to the forum's container file. */
  lemma PostLinksRouting(m: MessageFields, f: FileName)
    ensures RowsFor(PostLinks(m), f)
         == (if f == PostHasCreatorPerson then [[Num(m.messageId), Num(m.author.accountId)]] else [])
            + (if f == ForumContainerOfPost then [[Num(m.forumId), Num(m.messageId)]] else [])
  {
    RowsForTwo(PostLinks(m)[0], PostLinks(m)[1], f);
  }

  /**
   * `serialize(Post)` writes exactly one post row, one creator row and one
   * container row, a place row exactly when the country is known, and one tag
   * row per tag, in order.
   */
  lemma PostRouting(p: Post, lk: Lookups)
    ensures RowsFor(PostWrites(p, lk), PostTable) == [PostRow(p, lk).row]
    ensures RowsFor(PostWrites(p, lk), PostHasCreatorPerson) == [[Num(p.fields.messageId), Num(p.fields.author.accountId)]]
    ensures RowsFor(PostWrites(p, lk), ForumContainerOfPost) == [[Num(p.fields.forumId), Num(p.fields.messageId)]]
    ensures RowsFor(PostWrites(p, lk), PostIsLocatedInPlace)
         == (if p.country.Some? then [[Num(p.fields.messageId), Num(p.country.value)]] else [])
    ensures RowsFor(PostWrites(p, lk), PostHasTagTag) == TagRows(p.fields.messageId, p.fields.tags)
  {
    PostFileRows(PostRow(p, lk), p.fields, p.country, PostTable);
    PostFileRows(PostRow(p, lk), p.fields, p.country, PostHasCreatorPerson);
    PostFileRows(PostRow(p, lk), p.fields, p.country, ForumContainerOfPost);
    PostFileRows(PostRow(p, lk), p.fields, p.country, PostIsLocatedInPlace);
    PostFileRows(PostRow(p, lk), p.fields, p.country, PostHasTagTag);
  }

  /** A photo is routed like a post, its photo row standing in the post table. */
  lemma PhotoRouting(photo: Photo, lk: Lookups)
    ensures RowsFor(PhotoWrites(photo, lk), PostTable) == [PhotoRow(photo, lk).row]
    ensures RowsFor(PhotoWrites(photo, lk), PostHasCreatorPerson)
         == [[Num(photo.fields.messageId), Num(photo.fields.author.accountId)]]
    ensures RowsFor(PhotoWrites(photo, lk), ForumContainerOfPost) == [[Num(photo.fields.forumId), Num(photo.fields.messageId)]]
    ensures RowsFor(PhotoWrites(photo, lk), PostIsLocatedInPlace)
         == (if photo.country.Some? then [[Num(photo.fields.messageId), Num(photo.country.value)]] else [])
    ensures RowsFor(PhotoWrites(photo, lk), PostHasTagTag) == TagRows(photo.fields.messageId, photo.fields.tags)
  {
    PostFileRows(PhotoRow(photo, lk), photo.fields, photo.country, PostTable);
    PostFileRows(PhotoRow(photo, lk), photo.fields, photo.country, PostHasCreatorPerson);
    PostFileRows(PhotoRow(photo, lk), photo.fields, photo.country, ForumContainerOfPost);
    PostFileRows(PhotoRow(photo, lk), photo.fields, photo.country, PostIsLocatedInPlace);
    PostFileRows(PhotoRow(photo, lk), photo.fields, photo.country, PostHasTagTag);
  }

  /** The rows a post or photo with head row `head` sends to one file. */
  lemma PostFileRows(head: Write, m: MessageFields, country: Option<int>, f: FileName)
    requires head.file == PostTable
    ensures RowsFor(MessageWrites([head], m.messageId, country, PostIsLocatedInPlace, PostLinks(m), m.tags, PostHasTagTag), f)
         == (if f == PostTable then [head.row] else [])
            + (if f == PostIsLocatedInPlace && country.Some? then [[Num(m.messageId), Num(country.value)]] else [])
            + (if f == PostHasCreatorPerson then [[Num(m.messageId), Num(m.author.accountId)]] else [])
            + (if f == ForumContainerOfPost then [[Num(m.forumId), Num(m.messageId)]] else [])
            + (if f == PostHasTagTag then TagRows(m.messageId, m.tags) else [])
  {
    MessageRows([head], m.messageId, country, PostIsLocatedInPlace, PostLinks(m), m.tags, PostHasTagTag, f);
    RowsForOne(head, f);
    PostLinksRouting(m, f);
  }

  /**
   * `serialize(Comment)` writes exactly one comment row and one creator row, a
   * place row exactly when the country is known, and one tag row per tag.
   */
  lemma CommentRouting(m: MessageFields, country: Option<int>, postId: int, replyOf: int, gif: JavaString, lk: Lookups)
    ensures RowsFor(CommentWrites(m, country, postId, replyOf, gif, lk), CommentTable) == [CommentRow(m, gif, lk).row]
    ensures RowsFor(CommentWrites(m, country, postId, replyOf, gif, lk), CommentHasCreatorPerson)
         == [[Num(m.messageId), Num(m.author.accountId)]]
    ensures RowsFor(CommentWrites(m, country, postId, replyOf, gif, lk), CommentIsLocatedInPlace)
         == (if country.Some? then [[Num(m.messageId), Num(country.value)]] else [])
    ensures RowsFor(CommentWrites(m, country, postId, replyOf, gif, lk), CommentHasTagTag) == TagRows(m.messageId, m.tags)
  {
    CommentFileRows(m, country, postId, replyOf, gif, lk, CommentTable);
    CommentFileRows(m, country, postId, replyOf, gif, lk, CommentHasCreatorPerson);
    CommentFileRows(m, country, postId, replyOf, gif, lk, CommentIsLocatedInPlace);
    CommentFileRows(m, country, postId, replyOf, gif, lk, CommentHasTagTag);
  }

  /** A comment gets exactly one reply row, in the file its parent's kind selects, and none in the other. */
  lemma CommentReplyRouting(m: MessageFields, country: Option<int>, postId: int, replyOf: int, gif: JavaString,
                            lk: Lookups)
    ensures RowsFor(CommentWrites(m, country, postId, replyOf, gif, lk), CommentReplyOfPost)
         == (if replyOf == postId then [[Num(m.messageId), Num(postId)]] else [])
    ensures RowsFor(CommentWrites(m, country, postId, replyOf, gif, lk), CommentReplyOfComment)
         == (if replyOf == postId then [] else [[Num(m.messageId), Num(replyOf)]])
  {
    CommentReplyRows(m, country, postId, replyOf, gif, lk, CommentReplyOfPost);
    CommentReplyRows(m, country, postId, replyOf, gif, lk, CommentReplyOfComment);
  }

  lemma CommentReplyRows(m: MessageFields, country: Option<int>, postId: int, replyOf: int, gif: JavaString,
                         lk: Lookups, f: FileName)
    requires f == CommentReplyOfPost || f == CommentReplyOfComment
    ensures RowsFor(CommentWrites(m, country, postId, replyOf, gif, lk), f)
         == if f == ReplyWrite(m.messageId, postId, replyOf).file then [ReplyWrite(m.messageId, postId, replyOf).row] else []
  {
    CommentFileRows(m, country, postId, replyOf, gif, lk, f);
  }

  /** The rows a comment sends to one file. */
  lemma CommentFileRows(m: MessageFields, country: Option<int>, postId: int, replyOf: int, gif: JavaString,
                        lk: Lookups, f: FileName)
    ensures RowsFor(CommentWrites(m, country, postId, replyOf, gif, lk), f)
         == (if f == CommentTable then [CommentRow(m, gif, lk).row] else [])
            + (if f == ReplyWrite(m.messageId, postId, replyOf).file then [ReplyWrite(m.messageId, postId, replyOf).row] else [])
            + (if f == CommentIsLocatedInPlace && country.Some? then [[Num(m.messageId), Num(country.value)]] else [])
            + (if f == CommentHasCreatorPerson then [[Num(m.messageId), Num(m.author.accountId)]] else [])
            + (if f == CommentHasTagTag then TagRows(m.messageId, m.tags) else [])
  {
    var row := CommentRow(m, gif, lk);
    var reply := ReplyWrite(m.messageId, postId, replyOf);
    MessageRows([row, reply], m.messageId, country, CommentIsLocatedInPlace, [CommentCreator(m)], m.tags,
                CommentHasTagTag, f);
    RowsForTwo(row, reply, f);
    RowsForOne(CommentCreator(m), f);
  }

  /** A membership writes exactly its one row to the member file. */
  lemma MembershipRouting(fm: ForumMembership, lk: Lookups)
    ensures RowsFor(MembershipWrites(fm, lk), ForumHasMemberPerson)
         == [[Num(fm.forumId), Num(fm.person.accountId), Text(lk.formatDateTime(fm.creationDate))]]
  {
    RowsForOne(MembershipWrites(fm, lk)[0], ForumHasMemberPerson);
  }

  /** A like's row lands in exactly one of the two like files, chosen by the liked message's kind. */
  lemma LikeRouting(l: Like, lk: Lookups)
    ensures RowsFor(LikeWrites(l, lk), PersonLikesPost) == (if LikesPostTable(l) then [LikeRow(l, lk)] else [])
    ensures RowsFor(LikeWrites(l, lk), PersonLikesComment) == (if LikesPostTable(l) then [] else [LikeRow(l, lk)])
  {
    RowsForOne(LikeWrites(l, lk)[0], PersonLikesPost);
    RowsForOne(LikeWrites(l, lk)[0], PersonLikesComment);
  }

  /** One `HDFSCSVWriter`: its file name and the rows written so far. */
  datatype Writer = Writer(fileName: string, rows: seq<Row>)

  /** Appends each write's row to the writer of its file. */
  function Appended(writers: seq<Writer>, ws: seq<Write>): (r: seq<Writer>)
    requires |writers| == NumFiles
    ensures |r| == NumFiles
  {
    if ws == [] then writers
    else
      var w := ws[|ws| - 1];
      var prev := Appended(writers, ws[..|ws| - 1]);
      prev[Ordinal(w.file) := prev[Ordinal(w.file)].(rows := prev[Ordinal(w.file)].rows + [w.row])]
  }

  /** `serialize(Comment)` appends its reply row to exactly one of the two reply files, the one its parent's kind selects. */
  lemma AppendedCommentReply(writers: seq<Writer>, m: MessageFields, country: Option<int>, postId: int, replyOf: int,
                             gif: JavaString, lk: Lookups)
    requires |writers| == NumFiles
    ensures Appended(writers, CommentWrites(m, country, postId, replyOf, gif, lk))[Ordinal(CommentReplyOfPost)].rows
         == writers[Ordinal(CommentReplyOfPost)].rows + (if replyOf == postId then [[Num(m.messageId), Num(postId)]] else [])
    ensures Appended(writers, CommentWrites(m, country, postId, replyOf, gif, lk))[Ordinal(CommentReplyOfComment)].rows
         == writers[Ordinal(CommentReplyOfComment)].rows + (if replyOf == postId then [] else [[Num(m.messageId), Num(replyOf)]])
  {
    CommentReplyRouting(m, country, postId, replyOf, gif, lk);
    AppendedRows(writers, CommentWrites(m, country, postId, replyOf, gif, lk), CommentReplyOfPost);
    AppendedRows(writers, CommentWrites(m, country, postId, replyOf, gif, lk), CommentReplyOfComment);
  }

  /** `serialize(Like)` appends its row to the post-likes file for posts and photos, else to the comment-likes file. */
  lemma AppendedLike(writers: seq<Writer>, l: Like, lk: Lookups)
    requires |writers| == NumFiles
    ensures Appended(writers, LikeWrites(l, lk))[Ordinal(PersonLikesPost)].rows
         == writers[Ordinal(PersonLikesPost)].rows + (if LikesPostTable(l) then [LikeRow(l, lk)] else [])
    ensures Appended(writers, LikeWrites(l, lk))[Ordinal(PersonLikesComment)].rows
         == writers[Ordinal(PersonLikesComment)].rows + (if LikesPostTable(l) then [] else [LikeRow(l, lk)])
  {
    LikeRouting(l, lk);
    AppendedRows(writers, LikeWrites(l, lk), PersonLikesPost);
    AppendedRows(writers, LikeWrites(l, lk), PersonLikesComment);
  }

  /** Appending keeps every writer's file name, and adds to each file exactly the rows routed to it. */
  lemma {:induction false} AppendedRows(writers: seq<Writer>, ws: seq<Write>, f: FileName)
    requires |writers| == NumFiles
    ensures Appended(writers, ws)[Ordinal(f)].fileName == writers[Ordinal(f)].fileName
    ensures Appended(writers, ws)[Ordinal(f)].rows == writers[Ordinal(f)].rows + RowsFor(ws, f)
    decreases |ws|
  {
    if ws != [] {
      AppendedRows(writers, ws[..|ws| - 1], f);
      OrdinalInjective(ws[|ws| - 1].file, f);
    }
  }

  /** A single write appends its row to its own file's writer and to no other. */
  lemma AppendedOne(writers: seq<Writer>, w: Write)
    requires |writers| == NumFiles
    ensures Appended(writers, [w])
         == writers[Ordinal(w.file) := writers[Ordinal(w.file)].(rows := writers[Ordinal(w.file)].rows + [w.row])]
  {
    assert [w][..0] == [];
  }

  lemma {:induction false} AppendedConcat(writers: seq<Writer>, a: seq<Write>, b: seq<Write>)
    requires |writers| == NumFiles
    ensures Appended(writers, a + b) == Appended(Appended(writers, a), b)
    decreases |b|
  {
    if b == [] {
      assert a + b == a;
    } else {
      var front := b[..|b| - 1];
      assert (a + b)[..|a + b| - 1] == a + front;
      AppendedConcat(writers, a, front);
    }
  }

  /** The effect of one pass of a tag loop. */
  lemma TagStep(writers: seq<Writer>, id: int, tags: seq<int>, i: nat, file: FileName)
    requires |writers| == NumFiles && i < |tags|
    ensures Appended(writers, TagWrites(id, tags[..i + 1], file))
         == Appended(Appended(writers, TagWrites(id, tags[..i], file)), [Write(file, [Num(id), Num(tags[i])])])
  {
    assert tags[..i + 1] == tags[..i] + [tags[i]];
    TagWritesSnoc(id, tags[..i], tags[i], file);
    AppendedConcat(writers, TagWrites(id, tags[..i], file), [Write(file, [Num(id), Num(tags[i])])]);
  }

  class CsvPersonActivitySerializer {
    /** One writer per file, by ordinal; `null` until `initialize`. */
    var writers: array?<Writer>
    /** The scratch row, cleared after every `writeEntry`. */
    var arguments: Row
    const lookups: Lookups

    ghost predicate Valid()
      reads this
    {
      writers != null && writers.Length == NumFiles && arguments == []
    }

    /**
     * The empty constructor: no writers. Java leaves `arguments` null until
     * `initialize` creates it; nothing reads it before then, so it is empty here.
     */
    constructor (lookups: Lookups)
      ensures writers == null && arguments == [] && this.lookups == lookups
    {
      writers := null;
      arguments := [];
      this.lookups := lookups;
    }

    /**
     * `initialize(conf, reducerId)`: one writer per file, named after the file
     * and the reducer, each holding its header row.
     */
    method Initialize(reducerId: int)
      modifies this
      ensures Valid() && fresh(writers)
      ensures forall i :: 0 <= i < NumFiles ==>
                writers[i] == Writer(Name(FileAt(i)) + "_" + NumberText(reducerId), [HeaderRow(FileAt(i))])
    {
      var w := new Writer[NumFiles](i requires 0 <= i < NumFiles => Writer(Name(FileAt(i)) + "_" + NumberText(reducerId), []));
      writers := w;
      arguments := [];
      for i := 0 to NumFiles
        invariant writers == w && arguments == []
        invariant forall j :: 0 <= j < i ==>
                    w[j] == Writer(Name(FileAt(j)) + "_" + NumberText(reducerId), [HeaderRow(FileAt(j))])
        invariant forall j :: i <= j < NumFiles ==>
                    w[j] == Writer(Name(FileAt(j)) + "_" + NumberText(reducerId), [])
      {
        ghost var before := w[..];
        arguments := HeaderRow(FileAt(i));
        WriteEntry(FileAt(i));
        AppendedOne(before, Write(FileAt(i), HeaderRow(FileAt(i))));
      }
    }

    /** `writers[f.ordinal()].writeEntry(arguments); arguments.clear()`. */
    method WriteEntry(f: FileName)
      requires writers != null && writers.Length == NumFiles
      modifies writers, this`arguments
      ensures writers[..] == Appended(old(writers[..]), [Write(f, old(arguments))])
      ensures arguments == []
    {
      writers[Ordinal(f)] := writers[Ordinal(f)].(rows := writers[Ordinal(f)].rows + [arguments]);
      arguments := [];
      assert [Write(f, old(arguments))][..0] == [];
    }

    /** The tag loop shared by the `serialize` overloads: one `[id, tag]` row per tag. */
    method WriteTags(id: int, tags: seq<int>, file: FileName)
      requires Valid()
      modifies writers, this`arguments
      ensures Valid()
      ensures writers[..] == Appended(old(writers[..]), TagWrites(id, tags, file))
    {
      ghost var w0 := writers[..];
      for i := 0 to |tags|
        invariant Valid()
        invariant writers[..] == Appended(w0, TagWrites(id, tags[..i], file))
      {
        WriteTag(id, tags, i, file, w0);
      }
      assert tags[..|tags|] == tags;
    }

    /** One pass of the tag loop: the row for `tags[i]`. */
    method WriteTag(id: int, tags: seq<int>, i: nat, file: FileName, ghost w0: seq<Writer>)
      requires Valid() && i < |tags| && |w0| == NumFiles
      requires writers[..] == Appended(w0, TagWrites(id, tags[..i], file))
      modifies writers, this`arguments
      ensures Valid()
      ensures writers[..] == Appended(w0, TagWrites(id, tags[..i + 1], file))
    {
      WriteRow(file, [Num(id), Num(tags[i])]);
      TagStep(w0, id, tags, i, file);
    }

    /** Fills `arguments` with `row` and writes it to `f`'s writer. */
    method WriteRow(f: FileName, row: Row)
      requires Valid()
      modifies writers, this`arguments
      ensures Valid()
      ensures writers[..] == Appended(old(writers[..]), [Write(f, row)])
    {
      arguments := row;
      WriteEntry(f);
    }

    /** `serialize(Forum)`. */
    method SerializeForum(forum: Forum)
      requires Valid()
      modifies writers, this`arguments
      ensures Valid()
      ensures writers[..] == Appended(old(writers[..]), ForumWrites(forum, lookups))
    {
      ghost var w0 := writers[..];
      var dateString := lookups.formatDateTime(forum.creationDate);
      var first := Write(ForumTable, [Num(forum.id), Text(forum.title), Text(dateString)]);
      WriteRow(first.file, first.row);
      var moderator := Write(ForumHasModeratorPerson, [Num(forum.id), Num(forum.moderator.accountId)]);
      WriteRow(moderator.file, moderator.row);
      AppendedConcat(w0, [first], [moderator]);
      ghost var w1 := writers[..];
      assert w1 == Appended(w0, [first] + [moderator]);
      WriteTags(forum.id, forum.tags, ForumHasTagTag);
      assert writers[..] == Appended(w1, TagWrites(forum.id, forum.tags, ForumHasTagTag));
      AppendedConcat(w0, [first] + [moderator], TagWrites(forum.id, forum.tags, ForumHasTagTag));
      assert ForumWrites(forum, lookups) == [first] + [moderator] + TagWrites(forum.id, forum.tags, ForumHasTagTag);
    }

    /** The optional `isLocatedIn` row. */
    method WritePlace(id: int, country: Option<int>, file: FileName)
      requires Valid()
      modifies writers, this`arguments
      ensures Valid()
      ensures writers[..] == Appended(old(writers[..]), PlaceWrites(id, country, file))
    {
      if country.Some? {
        WriteRow(file, [Num(id), Num(country.value)]);
      }
    }

    /** `serialize(Post)`. */
    method SerializePost(p: Post)
      requires Valid()
      modifies writers, this`arguments
      ensures Valid()
      ensures writers[..] == Appended(old(writers[..]), PostWrites(p, lookups))
    {
      ghost var w0 := writers[..];
      var m := p.fields;
      var first := Write(PostTable, [Num(m.messageId), Text(""), Text(lookups.formatDateTime(m.creationDate)),
                                     Text(lookups.ipText(m.ipAddress)), Text(lookups.browserName(m.browserId)),
                                     Text(lookups.languageName(p.language)), Text(m.content), Num(|m.content|)]);
      WriteRow(first.file, first.row);
      WritePlace(m.messageId, p.country, PostIsLocatedInPlace);
      ghost var done := [first] + PlaceWrites(m.messageId, p.country, PostIsLocatedInPlace);
      AppendedConcat(w0, [first], PlaceWrites(m.messageId, p.country, PostIsLocatedInPlace));
      var creator := Write(PostHasCreatorPerson, [Num(m.messageId), Num(m.author.accountId)]);
      WriteRow(creator.file, creator.row);
      AppendedConcat(w0, done, [creator]);
      var container := Write(ForumContainerOfPost, [Num(m.forumId), Num(m.messageId)]);
      WriteRow(container.file, container.row);
      AppendedConcat(w0, done + [creator], [container]);
      assert done + [creator] + [container] == done + PostLinks(m);
      WriteTags(m.messageId, m.tags, PostHasTagTag);
      AppendedConcat(w0, done + PostLinks(m), TagWrites(m.messageId, m.tags, PostHasTagTag));
    }

    /** `serialize(Photo)`. */
    method SerializePhoto(p: Photo)
      requires Valid()
      modifies writers, this`arguments
      ensures Valid()
      ensures writers[..] == Appended(old(writers[..]), PhotoWrites(p, lookups))
    {
      ghost var w0 := writers[..];
      var m := p.fields;
      var first := Write(PostTable, [Num(m.messageId), Text(m.content), Text(lookups.formatDateTime(m.creationDate)),
                                     Text(lookups.ipText(m.ipAddress)), Text(lookups.browserName(m.browserId)),
                                     Text(""), Text(""), Num(0)]);
      WriteRow(first.file, first.row);
      WritePlace(m.messageId, p.country, PostIsLocatedInPlace);
      ghost var done := [first] + PlaceWrites(m.messageId, p.country, PostIsLocatedInPlace);
      AppendedConcat(w0, [first], PlaceWrites(m.messageId, p.country, PostIsLocatedInPlace));
      var creator := Write(PostHasCreatorPerson, [Num(m.messageId), Num(m.author.accountId)]);
      WriteRow(creator.file, creator.row);
      AppendedConcat(w0, done, [creator]);
      var container := Write(ForumContainerOfPost, [Num(m.forumId), Num(m.messageId)]);
      WriteRow(container.file, container.row);
      AppendedConcat(w0, done + [creator], [container]);
      assert done + [creator] + [container] == done + PostLinks(m);
      WriteTags(m.messageId, m.tags, PostHasTagTag);
      AppendedConcat(w0, done + PostLinks(m), TagWrites(m.messageId, m.tags, PostHasTagTag));
    }

    /** `serialize(Comment)`: reads the comment's fields; the comment itself is not changed. */
    method SerializeComment(c: Comment)
      requires Valid()
      modifies writers, this`arguments
      ensures Valid()
      ensures writers[..] == Appended(old(writers[..]), CommentWrites(c.fields, c.country, c.postId, c.replyOf, c.gif, lookups))
    {
      ghost var w0 := writers[..];
      var m := c.fields;
      var first := Write(CommentTable, [Num(m.messageId), Text(lookups.formatDateTime(m.creationDate)),
                                        Text(lookups.ipText(m.ipAddress)), Text(lookups.browserName(m.browserId)),
                                        Text(m.content), c.Gif(), Num(|m.content|)]);
      WriteRow(first.file, first.row);
      var reply: Write;
      if c.ReplyOf() == c.PostId() {
        reply := Write(CommentReplyOfPost, [Num(m.messageId), Num(c.PostId())]);
      } else {
        reply := Write(CommentReplyOfComment, [Num(m.messageId), Num(c.ReplyOf())]);
      }
      WriteRow(reply.file, reply.row);
      AppendedConcat(w0, [first], [reply]);
      ghost var done := [first, reply];
      assert [first] + [reply] == done;
      WritePlace(m.messageId, c.country, CommentIsLocatedInPlace);
      AppendedConcat(w0, done, PlaceWrites(m.messageId, c.country, CommentIsLocatedInPlace));
      done := done + PlaceWrites(m.messageId, c.country, CommentIsLocatedInPlace);
      var creator := Write(CommentHasCreatorPerson, [Num(m.messageId), Num(m.author.accountId)]);
      WriteRow(creator.file, creator.row);
      AppendedConcat(w0, done, [creator]);
      WriteTags(m.messageId, m.tags, CommentHasTagTag);
      AppendedConcat(w0, done + [creator], TagWrites(m.messageId, m.tags, CommentHasTagTag));
    }

    /** `serialize(ForumMembership)`. */
    method SerializeMembership(fm: ForumMembership)
      requires Valid()
      modifies writers, this`arguments
      ensures Valid()
      ensures writers[..] == Appended(old(writers[..]), MembershipWrites(fm, lookups))
    {
      var dateString := lookups.formatDateTime(fm.creationDate);
      WriteRow(ForumHasMemberPerson, [Num(fm.forumId), Num(fm.person.accountId), Text(dateString)]);
    }

    /** `serialize(Like)`. */
    method SerializeLike(l: Like)
      requires Valid()
      modifies writers, this`arguments
      ensures Valid()
      ensures writers[..] == Appended(old(writers[..]), LikeWrites(l, lookups))
    {
      var row := [Num(l.user), Num(l.messageId), Text(lookups.formatDateTime(l.date))];
      if l.likeType == POST || l.likeType == PHOTO {
        WriteRow(PersonLikesPost, row);
      } else {
        WriteRow(PersonLikesComment, row);
      }
    }

    /** `reset()` does nothing: the writers and their rows are left as they are. */
    method Reset()
      ensures unchanged(this) && (writers != null ==> unchanged(writers))
    {
    }
  }
}
