/**
 * The value objects the activity generator hands to its serialisers: forums,
 * memberships, messages and likes, and the dictionary lookups the serialisers
 * use to render them. Only the fields the modelled code reads are kept.
 */
module Entities {
  import opened Wrappers

  /** A Java `String` reference: `None` is `null`. */
  type JavaString = Option<string>

  /** A person of the block being processed. */
  datatype Person = Person(accountId: int, creationDate: int)

  /** `Person.PersonSummary`: the part of a person that messages and memberships keep. */
  datatype PersonSummary = PersonSummary(accountId: int)

  function Summary(p: Person): (s: PersonSummary)
    ensures s.accountId == p.accountId
  {
    PersonSummary(p.accountId)
  }

  /** An IP address; its text form is a lookup. */
  datatype IP = IP(address: int, mask: int)

  /** A `TreeSet<Integer>` of tags as it iterates: strictly ascending, hence without repeats. */
  predicate Ascending(s: seq<int>)
  {
    forall i, j :: 0 <= i < j < |s| ==> s[i] < s[j]
  }

  type TagSet = s: seq<int> | Ascending(s)

  /** The eight values every `Message` constructor and `initialize` take. */
  datatype MessageFields = MessageFields(
    messageId: int,
    creationDate: int,
    author: PersonSummary,
    forumId: int,
    content: string,
    tags: TagSet,
    ipAddress: IP,
    browserId: int)

  /** A post; `country` is `None` when `countryKnown()` is false. */
  datatype Post = Post(fields: MessageFields, country: Option<int>, language: int)

  /** A photo; its `content` is the image file name. */
  datatype Photo = Photo(fields: MessageFields, country: Option<int>)

  datatype ForumMembership = ForumMembership(forumId: int, creationDate: int, person: PersonSummary)

  datatype Forum = Forum(
    id: int,
    title: string,
    creationDate: int,
    moderator: PersonSummary,
    tags: seq<int>,
    memberships: seq<ForumMembership>)

  /** `Like.LikeType`. */
  datatype LikeType = POST | COMMENT | PHOTO

  datatype Like = Like(user: int, messageId: int, date: int, likeType: LikeType)

  /** A like whose target sits in the post table: a post or a photo. */
  predicate LikesPostTable(l: Like)
  {
    l.likeType == POST || l.likeType == PHOTO
  }

  /**
   * The dictionary and formatting lookups the serialisers call
   * (`Dictionaries.dates`, `browsers`, `languages`, `places`, `tags`, `IP.toString`).
   */
  datatype Lookups = Lookups(
    formatDateTime: int -> string,
    browserName: int -> string,
    languageName: int -> string,
    placeName: int -> string,
    tagName: int -> string,
    ipText: IP -> string)
}
