/**
 * `Comment`: a message that replies to a post or to another comment of the
 * same thread, carrying either text content or a gif.
 */
module Comments {
  import opened Wrappers
  import opened Entities

  /** The state `Message()`, the superclass's no-argument constructor, leaves behind. */
  const BlankFields := MessageFields(0, 0, PersonSummary(0), 0, "", [], IP(0, 0), 0)

  class Comment {
    /** The superclass part set by `Message`'s constructors and `initialize`. */
    var fields: MessageFields
    /** `countryKnown()` / `countryId()` of the superclass: set by its own setter, not by its constructors. */
    var country: Option<int>
    /** The thread root. */
    var postId: int
    /** The direct parent: `postId` itself, or an earlier comment. */
    var replyOf: int
    /** The gif file; `None` is `null`. */
    var gif: JavaString

    /** `Comment()`: every field of its own keeps the Java default. */
    constructor Default()
      ensures fields == BlankFields && country == None
      ensures postId == 0 && replyOf == 0 && gif == None
    {
      fields := BlankFields;
      country := None;
      postId := 0;
      replyOf := 0;
      gif := None;
    }

    /** `Comment(Comment)`: copies the message part, `postId` and `replyOf`, but not the gif. */
    constructor Copy(c: Comment)
      ensures fields == c.fields && country == None
      ensures postId == c.postId && replyOf == c.replyOf
      ensures gif == None
    {
      fields := c.fields;
      country := None;
      postId := c.postId;
      replyOf := c.replyOf;
      gif := None;
    }

    /** The eleven-argument constructor. */
    constructor (m: MessageFields, postId: int, replyOf: int, gif: JavaString)
      ensures fields == m && country == None
      ensures this.postId == postId && this.replyOf == replyOf && this.gif == gif
    {
      fields := m;
      country := None;
      this.postId := postId;
      this.replyOf := replyOf;
      this.gif := gif;
    }

    /** `initialize`: reuses the object for another comment; the country is not touched. */
    method Initialize(m: MessageFields, postId: int, replyOf: int, gif: JavaString)
      modifies this
      ensures fields == m && country == old(country)
      ensures this.postId == postId && this.replyOf == replyOf && this.gif == gif
    {
      fields := m;
      this.postId := postId;
      this.replyOf := replyOf;
      this.gif := gif;
    }

    function PostId(): int
      reads this
    {
      postId
    }

    function ReplyOf(): int
      reads this
    {
      replyOf
    }

    function Gif(): JavaString
      reads this
    {
      gif
    }

    /** `postId(long)`: changes the thread root and nothing else. */
    method SetPostId(id: int)
      modifies this
      ensures postId == id
      ensures replyOf == old(replyOf) && gif == old(gif)
      ensures fields == old(fields) && country == old(country)
    {
      postId := id;
    }

    /** `replyOf(long)`: changes the parent and nothing else. */
    method SetReplyOf(id: int)
      modifies this
      ensures replyOf == id
      ensures postId == old(postId) && gif == old(gif)
      ensures fields == old(fields) && country == old(country)
    {
      replyOf := id;
    }

    /** `gif(String)`: changes the gif and nothing else. */
    method SetGif(g: JavaString)
      modifies this
      ensures gif == g
      ensures postId == old(postId) && replyOf == old(replyOf)
      ensures fields == old(fields) && country == old(country)
    {
      gif := g;
    }
  }

  /** A call of one of the three setters of `Comment`, with its argument. */
  datatype SetterCall = SetPostIdCall(id: int) | SetReplyOfCall(id: int) | SetGifCall(g: JavaString)

  /** The argument of `call` when it is a `postId(long)` call. */
  function PostIdArg(call: SetterCall): Option<int>
  {
    if call.SetPostIdCall? then Some(call.id) else None
  }

  /** The argument of `call` when it is a `replyOf(long)` call. */
  function ReplyOfArg(call: SetterCall): Option<int>
  {
    if call.SetReplyOfCall? then Some(call.id) else None
  }

  /** The argument of `call` when it is a `gif(String)` call. */
  function GifArg(call: SetterCall): Option<JavaString>
  {
    if call.SetGifCall? then Some(call.g) else None
  }

  /**
   * The value one field holds after `calls`: the argument of the last call
   * that `arg` picks out as setting that field, or `initial` when none does.
   */
  function LastSet<T>(calls: seq<SetterCall>, arg: SetterCall -> Option<T>, initial: T): T
  {
    if calls == [] then initial
    else match arg(calls[|calls| - 1])
      case Some(v) => v
      case None => LastSet(calls[..|calls| - 1], arg, initial)
  }

  /** When call `k` sets the field and no later call does, the field holds call `k`'s argument. */
  lemma {:induction false} LastSetIsLast<T>(calls: seq<SetterCall>, arg: SetterCall -> Option<T>, initial: T, k: nat)
    requires k < |calls| && arg(calls[k]).Some?
    requires forall j :: k < j < |calls| ==> arg(calls[j]).None?
    ensures LastSet(calls, arg, initial) == arg(calls[k]).value
    decreases |calls|
  {
    if k < |calls| - 1 {
      var front := calls[..|calls| - 1];
      assert forall j :: k < j < |front| ==> front[j] == calls[j];
      LastSetIsLast(front, arg, initial, k);
    }
  }

  /** When no call sets the field, it keeps its initial value. */
  lemma {:induction false} LastSetUntouched<T>(calls: seq<SetterCall>, arg: SetterCall -> Option<T>, initial: T)
    requires forall j :: 0 <= j < |calls| ==> arg(calls[j]).None?
    ensures LastSet(calls, arg, initial) == initial
    decreases |calls|
  {
    if calls != [] {
      var front := calls[..|calls| - 1];
      assert forall j :: 0 <= j < |front| ==> front[j] == calls[j];
      LastSetUntouched(front, arg, initial);
    }
  }

  /**
   * Calls the setters of `c` in the order `calls` gives: each getter then
   * reports the argument of the last setter call on its own field (or what
   * the comment held before, when there is none), whatever was set on the
   * other fields in between; the message part and the country are untouched.
   */
  method LastSetterWins(c: Comment, calls: seq<SetterCall>)
    modifies c
    ensures c.PostId() == LastSet(calls, PostIdArg, old(c.PostId()))
    ensures c.ReplyOf() == LastSet(calls, ReplyOfArg, old(c.ReplyOf()))
    ensures c.Gif() == LastSet(calls, GifArg, old(c.Gif()))
    ensures c.fields == old(c.fields) && c.country == old(c.country)
  {
    for i := 0 to |calls|
      invariant c.postId == LastSet(calls[..i], PostIdArg, old(c.postId))
      invariant c.replyOf == LastSet(calls[..i], ReplyOfArg, old(c.replyOf))
      invariant c.gif == LastSet(calls[..i], GifArg, old(c.gif))
      invariant c.fields == old(c.fields) && c.country == old(c.country)
    {
      match calls[i] {
        case SetPostIdCall(id) => c.SetPostId(id);
        case SetReplyOfCall(id) => c.SetReplyOf(id);
        case SetGifCall(g) => c.SetGif(g);
      }
      assert calls[..i + 1][..i] == calls[..i];
    }
    assert calls[..|calls|] == calls;
  }

  /**
   * A copy of a fully built comment keeps its thread root and parent but
   * reports no gif, whatever gif the original carried.
   */
  method CopyKeepsThreadDropsGif(m: MessageFields, p: int, r: int, g: JavaString)
    returns (postId: int, replyOf: int, gif: JavaString, originalGif: JavaString)
    ensures postId == p && replyOf == r
    ensures gif == None && originalGif == g
  {
    var original := new Comment(m, p, r, g);
    var copy := new Comment.Copy(original);
    postId, replyOf, gif, originalGif := copy.PostId(), copy.ReplyOf(), copy.Gif(), original.Gif();
  }

  /** After `initialize`, the getters return exactly the arguments passed, whatever the object held before. */
  method InitializeOverwrites(m0: MessageFields, p0: int, r0: int, g0: JavaString, m: MessageFields, p: int, r: int, g: JavaString)
    returns (postId: int, replyOf: int, gif: JavaString, fields: MessageFields)
    ensures postId == p && replyOf == r && gif == g && fields == m
  {
    var c := new Comment(m0, p0, r0, g0);
    c.Initialize(m, p, r, g);
    postId, replyOf, gif, fields := c.PostId(), c.ReplyOf(), c.Gif(), c.fields;
  }
}
