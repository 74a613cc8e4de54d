/**
 * `PersonActivityGenerator`: drives the activity of one block of persons.
 * For every person, in block order, it extracts the person's factors, then
 * creates the person's wall, groups and albums; every forum takes the next
 * forum id, and the message id is threaded through the post and photo
 * generators.
 *
 * The forum, post and photo generators, the date dictionary and the random
 * streams are collaborators whose code is not part of this model: they are
 * the function-valued fields of `Collaborators`. The forum, post and photo
 * generators are handed the random streams, as `randomFarm_` is handed to
 * them, and return how far they left every stream. What the generator hands
 * to the exporter, to the factor table, to the serializers and to the post
 * and photo generators is recorded, in order, in one log per receiver; the
 * functions from `StylePosts` to `Block` say what those logs receive.
 */
module ActivityGeneration {
  import opened Entities

  /**
   * The aspects of `RandomGeneratorFarm`: the five the generator draws from
   * itself, and the others, which only its collaborators draw from.
   */
  datatype Aspect = ForumModerator | NumForum | NumPhotoAlbum | NumPhoto | NumPost | OtherAspect(name: string)

  /**
   * How many draws each stream has given since the last reset: one count per
   * aspect the generator draws from, and a map for the others (an absent
   * name: none).
   */
  datatype Draws = Draws(moderator: nat, numForum: nat, numPhotoAlbum: nat, numPhoto: nat, numPost: nat,
                         others: map<string, nat>)

  /** The streams just after a reset. */
  const NoDraws := Draws(0, 0, 0, 0, 0, map[])

  /** The random streams as a collaborator receives them: the seed of their last reset and how far each was drawn. */
  datatype Farm = Farm(seed: int, drawn: Draws)

  /** The `DatagenParams` values the generator reads. */
  datatype Params = Params(
    maxNumPostPerMonth: nat,
    maxNumFlashmobPostPerMonth: nat,
    maxNumFriends: nat,
    maxNumGroupPostPerMonth: nat,
    maxNumGroupFlashmobPostPerMonth: nat,
    maxNumMemberGroup: nat,
    groupModeratorProb: real,
    maxNumGroupCreatedPerUser: nat,
    maxNumPhotoAlbumsPerMonth: nat,
    maxNumPhotoPerAlbums: nat,
    deltaTime: int,
    updateStreams: bool)

  /** The divisors and the `nextInt` bound the generator uses must be positive, or Java throws. */
  predicate ParamsOk(p: Params)
  {
    p.maxNumFriends > 0 && p.maxNumMemberGroup > 0 && p.maxNumGroupCreatedPerUser > 0
  }

  /** Parameters with which the generator does not throw. */
  type SafeParams = p: Params | ParamsOk(p) witness Params(0, 0, 1, 0, 0, 1, 0.0, 1, 0, 0, 0, false)

  datatype PostStyle = Uniform | Flashmob

  /** Which phase created a forum. */
  datatype Phase = Wall | Group | Album

  /**
   * The collaborators: `ForumGenerator.createWall/createGroup/createAlbum`
   * (each returns the forum), `UniformPostGenerator` /
   * `FlashmobPostGenerator.createPosts` and `PhotoGenerator.createPhotos`
   * (each returns the next free message id), each together with the draws
   * it leaves the streams at; `Dictionaries.dates.numberOfMonths` for a date
   * and for a person; and what `nextInt(bound)` and `nextDouble()` return as
   * the `k`-th draw of an aspect's stream after a reset with a given seed.
   */
  datatype Collaborators = Collaborators(
    createWall: (Farm, int, Person) -> (Forum, Draws),
    createGroup: (Farm, int, Person, seq<Person>) -> (Forum, Draws),
    createAlbum: (Farm, int, Person, nat) -> (Forum, Draws),
    createPosts: (Farm, PostStyle, Forum, seq<ForumMembership>, nat, int) -> (int, Draws),
    createPhotos: (Farm, Forum, seq<ForumMembership>, nat, int) -> (int, Draws),
    monthsSince: int -> nat,
    monthsActive: Person -> nat,
    nextInt: (int, Aspect, nat, nat) -> nat,
    nextDouble: (int, Aspect, nat) -> real)

  /** The forum generator gives each forum the id it is passed. */
  ghost predicate KeepsForumIds(c: Collaborators)
  {
    && (forall f, id, p :: c.createWall(f, id, p).0.id == id)
    && (forall f, id, p, b :: c.createGroup(f, id, p, b).0.id == id)
    && (forall f, id, p, i :: c.createAlbum(f, id, p, i).0.id == id)
  }

  /** `nextInt(bound)` lies in [0, bound) and `nextDouble()` in [0, 1), as `java.util.Random` promises. */
  ghost predicate DrawsInRange(c: Collaborators)
  {
    && (forall seed, a, k, bound :: 0 < bound ==> c.nextInt(seed, a, k, bound) < bound)
    && (forall seed, a, k :: 0.0 <= c.nextDouble(seed, a, k) < 1.0)
  }

  /** One draw of `nextInt(bound)` lies below `bound`. */
  lemma DrawBelow(c: Collaborators, seed: int, a: Aspect, k: nat, bound: nat)
    requires DrawsInRange(c) && 0 < bound
    ensures c.nextInt(seed, a, k, bound) < bound
  {
  }
  /** A call to a post generator or to the photo generator, with the message id it was given and the one it returned. */
  datatype GeneratorCall =
    | PostsCreated(style: PostStyle, forum: Forum, members: seq<ForumMembership>, count: nat,
                   firstMessageId: int, nextMessageId: int)
    | PhotosCreated(forum: Forum, members: seq<ForumMembership>, count: nat,
                    firstMessageId: int, nextMessageId: int)

  // ---------------------------------------------------------------------------
  // The count rules

  /** A month count of 0 draws as if the forum had been active one month. */
  function ActiveMonths(months: nat): (m: nat)
    ensures m >= 1 && m >= months
  {
    if months == 0 then 1 else months
  }

  /** The bound of the post-count draw in `numPostsPerGroup`. */
  function PostDrawBound(maxPostsPerMonth: nat, months: nat): nat
  {
    if months == 0 then maxPostsPerMonth + 1 else maxPostsPerMonth * months + 1
  }

  /** Both branches of the bound: `maxPostsPerMonth` posts for each active month, plus one. */
  lemma PostDrawBoundIsPerMonth(maxPostsPerMonth: nat, months: nat)
    ensures PostDrawBound(maxPostsPerMonth, months) == maxPostsPerMonth * ActiveMonths(months) + 1
    ensures PostDrawBound(maxPostsPerMonth, months) > 0
  {
  }

  /** `(numberPost * memberships) / maxMembersPerForum`, Java's integer division on non-negative values. */
  function PostCount(draw: nat, members: nat, maxMembers: nat): nat
    requires maxMembers > 0
  {
    (draw * members) / maxMembers
  }

  /** A forum without members, or a draw of zero, gets no posts. */
  lemma PostCountZero(draw: nat, members: nat, maxMembers: nat)
    requires maxMembers > 0 && (members == 0 || draw == 0)
    ensures PostCount(draw, members, maxMembers) == 0
  {
  }

  /** The post count is the floor of `draw * members / maxMembers`: no posts while that product is below the cap. */
  lemma PostCountIsFloor(draw: nat, members: nat, maxMembers: nat)
    requires maxMembers > 0
    ensures PostCount(draw, members, maxMembers) * maxMembers <= draw * members
    ensures draw * members < (PostCount(draw, members, maxMembers) + 1) * maxMembers
    ensures draw * members < maxMembers ==> PostCount(draw, members, maxMembers) == 0
  {
  }

  /** The number of groups a person creates: none unless the moderator test passes, then `draw + 1`. */
  function GroupCount(moderator: bool, draw: nat, maxGroups: nat): (n: nat)
    ensures n == 0 <==> !moderator
    ensures draw < maxGroups ==> n <= maxGroups
  {
    if moderator then draw + 1 else 0
  }

  /** The number of albums: the per-month draw, times the active months when there are any. */
  function AlbumCount(months: nat, draw: nat): nat
  {
    if months != 0 then months * draw else draw
  }

  /**
   * At most `maxPerMonth` albums per active month for a draw in range; none
   * exactly when the draw is zero; the draw itself for at most one month.
   */
  lemma AlbumCountBounds(months: nat, draw: nat, maxPerMonth: nat)
    ensures draw <= maxPerMonth ==> AlbumCount(months, draw) <= maxPerMonth * ActiveMonths(months)
    ensures AlbumCount(months, draw) == 0 <==> draw == 0
    ensures months <= 1 ==> AlbumCount(months, draw) == draw
  {
    if months != 0 && draw <= maxPerMonth {
      MulMonotone(months, draw, maxPerMonth);
    }
  }

  lemma MulMonotone(k: nat, a: nat, b: nat)
    requires a <= b
    ensures k * a <= k * b
  {
  }

  /** More members never give fewer posts (for a fixed draw). */
  lemma PostCountMonotoneInMembers(draw: nat, m1: nat, m2: nat, maxMembers: nat)
    requires maxMembers > 0 && m1 <= m2
    ensures PostCount(draw, m1, maxMembers) <= PostCount(draw, m2, maxMembers)
  {
    MulMonotone(draw, m1, m2);
    DivMonotone(draw * m1, draw * m2, maxMembers);
  }

  /** A larger draw never gives fewer posts (for a fixed membership). */
  lemma PostCountMonotoneInDraw(d1: nat, d2: nat, members: nat, maxMembers: nat)
    requires maxMembers > 0 && d1 <= d2
    ensures PostCount(d1, members, maxMembers) <= PostCount(d2, members, maxMembers)
  {
    MulMonotone(members, d1, d2);
    DivMonotone(d1 * members, d2 * members, maxMembers);
  }

  lemma DivMonotone(a: nat, b: nat, d: nat)
    requires d > 0 && a <= b
    ensures a / d <= b / d
  {
    var q, r := a / d, b / d;
    assert d * q + a % d == a && d * r + b % d == b;
    if q > r {
      MulMonotone(d, r + 1, q);
      assert false;
    }
  }

  /** A longer-lived forum never has a smaller post-count range. */
  lemma PostDrawBoundMonotoneInMonths(maxPostsPerMonth: nat, mo1: nat, mo2: nat)
    requires mo1 <= mo2
    ensures PostDrawBound(maxPostsPerMonth, mo1) <= PostDrawBound(maxPostsPerMonth, mo2)
  {
    MulMonotone(maxPostsPerMonth, ActiveMonths(mo1), ActiveMonths(mo2));
  }

  /** Every draw the post-count rule can make yields at most `maxPostsPerMonth * months * members / maxMembers` posts. */
  lemma PostCountBounded(maxPostsPerMonth: nat, months: nat, draw: nat, members: nat, maxMembers: nat)
    requires maxMembers > 0 && draw < PostDrawBound(maxPostsPerMonth, months)
    ensures PostCount(draw, members, maxMembers)
         <= PostCount(maxPostsPerMonth * ActiveMonths(months), members, maxMembers)
  {
    PostCountMonotoneInDraw(draw, maxPostsPerMonth * ActiveMonths(months), members, maxMembers);
  }

  // ---------------------------------------------------------------------------
  // Properties of the logs

  /** The memberships of `fs`, forum after forum: what the exporter receives after each forum. */
  function AllMemberships(fs: seq<Forum>): (ms: seq<ForumMembership>)
    ensures fs == [] ==> ms == []
  {
    if fs == [] then [] else AllMemberships(fs[..|fs| - 1]) + fs[|fs| - 1].memberships
  }

  lemma {:induction false} AllMembershipsAppend(a: seq<Forum>, b: seq<Forum>)
    ensures AllMemberships(a + b) == AllMemberships(a) + AllMemberships(b)
    decreases |b|
  {
    if b == [] {
      assert a + b == a;
    } else {
      var b', f := b[..|b| - 1], b[|b| - 1];
      assert (a + b)[..|a + b| - 1] == a + b';
      AllMembershipsAppend(a, b');
    }
  }

  /** The forums of `fs` carry the consecutive ids `start, start + 1, ...`. */
  ghost predicate IdsFrom(fs: seq<Forum>, start: int)
  {
    forall i :: 0 <= i < |fs| ==> fs[i].id == start + i
  }

  /**
   * The message id is threaded through the generator calls: the first call is
   * given `start`, each later call is given what the previous one returned, and
   * the last one returned `end` (or `start == end` when there is none).
   */
  ghost predicate Threaded(calls: seq<GeneratorCall>, start: int, end: int)
    decreases |calls|
  {
    if calls == [] then start == end
    else calls[0].firstMessageId == start
         && Threaded(calls[1..], calls[0].nextMessageId, end)
  }

  lemma {:induction false} ThreadedAppend(a: seq<GeneratorCall>, b: seq<GeneratorCall>, start: int, mid: int, end: int)
    requires Threaded(a, start, mid) && Threaded(b, mid, end)
    ensures Threaded(a + b, start, end)
    decreases |a|
  {
    if a != [] {
      assert (a + b)[1..] == a[1..] + b;
      ThreadedAppend(a[1..], b, a[0].nextMessageId, mid, end);
    } else {
      assert a + b == b;
    }
  }

  function Repeat<T>(x: T, n: nat): (r: seq<T>)
    ensures |r| == n && forall i :: 0 <= i < n ==> r[i] == x
  {
    seq(n, _ => x)
  }

  /** The single membership the wall and album generators are handed: the person, joining `deltaTime` after creation. */
  function OwnerMembership(forum: Forum, person: Person, deltaTime: int): (m: ForumMembership)
    ensures m.forumId == forum.id && m.person == Summary(person)
  {
    ForumMembership(forum.id, forum.creationDate + deltaTime, Summary(person))
  }

  /** How many draws an aspect's stream has given since the last reset. */
  function Cursor(drawn: Draws, a: Aspect): nat
  {
    match a
    case ForumModerator => drawn.moderator
    case NumForum => drawn.numForum
    case NumPhotoAlbum => drawn.numPhotoAlbum
    case NumPhoto => drawn.numPhoto
    case NumPost => drawn.numPost
    case OtherAspect(name) => if name in drawn.others then drawn.others[name] else 0
  }

  /** Calls `2k` and `2k + 1` are the uniform and the flashmob posts of group `k`, with the group's members. */
  ghost predicate GroupCalls(calls: seq<GeneratorCall>, groups: seq<Forum>)
  {
    && |calls| == 2 * |groups|
    && forall k :: 0 <= k < |calls| ==>
         && calls[k].PostsCreated? && calls[k].forum == groups[k / 2]
         && calls[k].style == (if k % 2 == 0 then Uniform else Flashmob)
         && calls[k].members == groups[k / 2].memberships
  }

  lemma {:induction false} GroupCallsStep(calls: seq<GeneratorCall>, groups: seq<Forum>, pair: seq<GeneratorCall>, group: Forum)
    requires GroupCalls(calls, groups) && |pair| == 2
    requires pair[0].PostsCreated? && pair[0].style == Uniform
    requires pair[1].PostsCreated? && pair[1].style == Flashmob
    requires pair[0].forum == pair[1].forum == group && pair[0].members == pair[1].members == group.memberships
    ensures GroupCalls(calls + pair, groups + [group])
  {
    var calls', groups' := calls + pair, groups + [group];
    forall k | 0 <= k < |calls'|
      ensures calls'[k].PostsCreated? && calls'[k].forum == groups'[k / 2]
      ensures calls'[k].style == (if k % 2 == 0 then Uniform else Flashmob)
      ensures calls'[k].members == groups'[k / 2].memberships
    {
      if k < |calls| {
        assert calls'[k] == calls[k] && groups'[k / 2] == groups[k / 2];
      } else {
        assert calls'[k] == pair[k - |calls|] && k / 2 == |groups|;
      }
    }
  }

  /** Call `k` is the photos of album `k`: at most `maxPhotos` of them, the owner as sole member. */
  ghost predicate AlbumCalls(calls: seq<GeneratorCall>, albums: seq<Forum>, person: Person, deltaTime: int, maxPhotos: nat)
  {
    && |calls| == |albums|
    && forall k :: 0 <= k < |calls| ==>
         && calls[k].PhotosCreated? && calls[k].forum == albums[k] && calls[k].count <= maxPhotos
         && calls[k].members == [OwnerMembership(albums[k], person, deltaTime)]
  }

  lemma AlbumCallsStep(calls: seq<GeneratorCall>, albums: seq<Forum>, call: GeneratorCall, album: Forum,
                       person: Person, deltaTime: int, maxPhotos: nat)
    requires AlbumCalls(calls, albums, person, deltaTime, maxPhotos)
    requires call.PhotosCreated? && call.forum == album && call.count <= maxPhotos
    requires call.members == [OwnerMembership(album, person, deltaTime)]
    ensures AlbumCalls(calls + [call], albums + [album], person, deltaTime, maxPhotos)
  {
  }

  lemma AppendAssoc<T>(o: seq<T>, a: seq<T>, b: seq<T>)
    ensures o + a + b == o + (a + b)
  {
  }

  /** Appending element `i` to what holds elements `0 .. i - 1` gives what holds elements `0 .. i`. */
  lemma TakeOneMore<T>(o: seq<T>, s: seq<T>, i: nat, f: seq<T>, g: seq<T>)
    requires i < |s| && f == o + s[..i] && g == f + [s[i]]
    ensures g == o + s[..i + 1]
  {
    assert s[..i + 1] == s[..i] + [s[i]];
  }

  /** Consecutive id runs concatenate. */
  lemma IdsFromAppend(a: seq<Forum>, b: seq<Forum>, start: int)
    requires IdsFrom(a, start) && IdsFrom(b, start + |a|)
    ensures IdsFrom(a + b, start)
  {
    forall i | 0 <= i < |a + b|
      ensures (a + b)[i].id == start + i
    {
      if i >= |a| {
        assert (a + b)[i] == b[i - |a|];
      }
    }
  }

  /** Forums with consecutive ids have pairwise distinct, increasing ids. */
  lemma IdsFromIncreasing(fs: seq<Forum>, start: int, i: int, j: int)
    requires IdsFrom(fs, start) && 0 <= i < j < |fs|
    ensures fs[i].id < fs[j].id
  {
  }

  // ---------------------------------------------------------------------------
  // The order of generation, as a function of where the streams stand

  /** The fixed inputs of a block: the parameters, the collaborators and the seed the streams were reset with. */
  datatype Run = Run(params: SafeParams, env: Collaborators, seed: int)

  /** Where generation stands between two steps: how far each stream was drawn, the next forum id and message id. */
  datatype Progress = Progress(drawn: Draws, forumId: int, messageId: int)

  /**
   * What a stretch of generation does: the forums it exports, in order, the
   * phase that created each, its calls to the post and photo generators, in
   * order, and where it leaves the streams and both ids.
   */
  datatype Trace = Trace(forums: seq<Forum>, phases: seq<Phase>, calls: seq<GeneratorCall>, next: Progress)

  /** Nothing done. */
  function Idle(p: Progress): Trace
  {
    Trace([], [], [], p)
  }

  /** `a`, then `b` from where `a` left off. */
  function Then(a: Trace, b: Trace): Trace
  {
    Trace(a.forums + b.forums, a.phases + b.phases, a.calls + b.calls, b.next)
  }

  /** `for (int j = 0; j < n; j++) round(j)`: each round starts where the previous one left off. */
  function Loop(round: (nat, Progress) -> Trace, n: nat, p: Progress): Trace
  {
    if n == 0 then Idle(p)
    else
      var before := Loop(round, n - 1, p);
      Then(before, round(n - 1, before.next))
  }

  /** `for (Person x : persons) step(x)` over the first `n` persons: each step starts where the previous one left off. */
  function Each(step: (Person, Progress) -> Trace, persons: seq<Person>, n: nat, p: Progress): Trace
    requires n <= |persons|
  {
    if n == 0 then Idle(p)
    else
      var before := Each(step, persons, n - 1, p);
      Then(before, step(persons[n - 1], before.next))
  }

  /** The generator's export logs: forums, the phase of each, memberships, and the post and photo calls. */
  datatype Logs = Logs(forums: seq<Forum>, phases: seq<Phase>, memberships: seq<ForumMembership>,
                       calls: seq<GeneratorCall>)

  /** `after` is `before` with `t`'s forums exported, each followed by its memberships, and `t`'s calls made. */
  ghost predicate Extends(before: Logs, t: Trace, after: Logs)
  {
    && after.forums == before.forums + t.forums && after.phases == before.phases + t.phases
    && after.memberships == before.memberships + AllMemberships(t.forums) && after.calls == before.calls + t.calls
  }

  /** Logging nothing leaves the logs as they are. */
  lemma ExtendsIdle(l: Logs, p: Progress)
    ensures Extends(l, Idle(p), l)
  {
    assert l.forums + [] == l.forums && l.phases + [] == l.phases;
    assert l.memberships + [] == l.memberships && l.calls + [] == l.calls;
  }

  /** Logging `a`, then `b`, logs `Then(a, b)`. */
  lemma ExtendsThen(l0: Logs, a: Trace, l1: Logs, b: Trace, l2: Logs)
    requires Extends(l0, a, l1) && Extends(l1, b, l2)
    ensures Extends(l0, Then(a, b), l2)
  {
    AllMembershipsAppend(a.forums, b.forums);
    AppendAssoc(l0.forums, a.forums, b.forums);
    AppendAssoc(l0.phases, a.phases, b.phases);
    AppendAssoc(l0.memberships, AllMemberships(a.forums), AllMemberships(b.forums));
    AppendAssoc(l0.calls, a.calls, b.calls);
  }

  /** A forum created by `phase` with the next forum id and exported, the streams left at `drawn`. */
  function Created(forum: Forum, phase: Phase, drawn: Draws, p: Progress): Trace
  {
    Trace([forum], [phase], [], Progress(drawn, p.forumId + 1, p.messageId))
  }

  /** One more draw from aspect `a`'s stream. */
  function Advance(drawn: Draws, a: Aspect): Draws
  {
    match a
    case ForumModerator => drawn.(moderator := drawn.moderator + 1)
    case NumForum => drawn.(numForum := drawn.numForum + 1)
    case NumPhotoAlbum => drawn.(numPhotoAlbum := drawn.numPhotoAlbum + 1)
    case NumPhoto => drawn.(numPhoto := drawn.numPhoto + 1)
    case NumPost => drawn.(numPost := drawn.numPost + 1)
    case OtherAspect(name) => drawn.(others := drawn.others[name := Cursor(drawn, a) + 1])
  }

  /** A draw from one aspect's stream leaves every other stream where it was. */
  lemma CursorOther(drawn: Draws, a: Aspect, b: Aspect)
    requires a != b
    ensures Cursor(Advance(drawn, a), b) == Cursor(drawn, b) && Cursor(Advance(drawn, a), a) == Cursor(drawn, a) + 1
  {
  }

  /** `numPostsPerGroup(randomFarm_, forum, maxPostsPerMonth, maxMembers)` with the post-count stream at `drawn`. */
  function PostCountDrawn(r: Run, forum: Forum, maxPostsPerMonth: nat, maxMembers: nat, drawn: Draws): nat
    requires maxMembers > 0
  {
    PostCount(r.env.nextInt(r.seed, NumPost, Cursor(drawn, NumPost), PostDrawBound(maxPostsPerMonth, r.env.monthsSince(forum.creationDate))),
              |forum.memberships|, maxMembers)
  }

  /** Whether the moderator test of `generateGroups` passes with the streams at `drawn`. */
  function Moderates(r: Run, drawn: Draws): bool
  {
    r.env.nextDouble(r.seed, ForumModerator, Cursor(drawn, ForumModerator)) <= r.params.groupModeratorProb
  }

  /** The number of groups `generateGroups` creates with the streams at `drawn`. */
  function GroupCountAt(r: Run, drawn: Draws): nat
  {
    GroupCount(Moderates(r, drawn),
               r.env.nextInt(r.seed, NumForum, Cursor(drawn, NumForum), r.params.maxNumGroupCreatedPerUser),
               r.params.maxNumGroupCreatedPerUser)
  }

  /** The number of albums `generateAlbums` creates with the streams at `drawn`. */
  function AlbumCountAt(r: Run, person: Person, drawn: Draws): nat
  {
    AlbumCount(r.env.monthsActive(person),
               r.env.nextInt(r.seed, NumPhotoAlbum, Cursor(drawn, NumPhotoAlbum), r.params.maxNumPhotoAlbumsPerMonth + 1))
  }

  /*
   * What each stretch of `PersonActivityGenerator`'s code does from `p`. Each
   * forum takes the forum id that is next, and each collaborator is handed
   * the streams as the previous draw left them.
   */

  /**
   * `messageId = xxxPostGenerator_.createPosts(randomFarm_, forum, members,
   * numPostsPerGroup(...), messageId, exporter_)`: the post count is drawn
   * before the post generator runs, as Java evaluates the arguments first.
   */
  function StylePosts(r: Run, style: PostStyle, forum: Forum, members: seq<ForumMembership>,
                      maxPosts: nat, maxMembers: nat, p: Progress): Trace
    requires maxMembers > 0
  {
    var count := PostCountDrawn(r, forum, maxPosts, maxMembers, p.drawn);
    var (next, drawn) := r.env.createPosts(Farm(r.seed, Advance(p.drawn, NumPost)), style, forum, members, count,
                                           p.messageId);
    Trace([], [], [PostsCreated(style, forum, members, count, p.messageId, next)], p.(drawn := drawn, messageId := next))
  }

  /** The uniform, then the flashmob posts of a forum. */
  function ForumPosts(r: Run, forum: Forum, members: seq<ForumMembership>,
                      maxPosts: nat, maxFlashmobPosts: nat, maxMembers: nat, p: Progress): Trace
    requires maxMembers > 0
  {
    var uniform := StylePosts(r, Uniform, forum, members, maxPosts, maxMembers, p);
    Then(uniform, StylePosts(r, Flashmob, forum, members, maxFlashmobPosts, maxMembers, uniform.next))
  }

  /** `generateWall`. */
  function WallOf(r: Run, person: Person, p: Progress): Trace
  {
    var (wall, drawn) := r.env.createWall(Farm(r.seed, p.drawn), p.forumId, person);
    var created := Created(wall, Wall, drawn, p);
    Then(created, ForumPosts(r, wall, [OwnerMembership(wall, person, r.params.deltaTime)],
                             r.params.maxNumPostPerMonth, r.params.maxNumFlashmobPostPerMonth,
                             r.params.maxNumFriends, created.next))
  }

  /** One round of the group loop of `generateGroups`. */
  function GroupOf(r: Run, person: Person, block: seq<Person>, p: Progress): Trace
  {
    var (group, drawn) := r.env.createGroup(Farm(r.seed, p.drawn), p.forumId, person, block);
    var created := Created(group, Group, drawn, p);
    Then(created, ForumPosts(r, group, group.memberships, r.params.maxNumGroupPostPerMonth,
                             r.params.maxNumGroupFlashmobPostPerMonth, r.params.maxNumMemberGroup, created.next))
  }

  /** Round `j` of the group loop, as a round of `Loop`. */
  function GroupRound(r: Run, person: Person, block: seq<Person>): (nat, Progress) -> Trace
  {
    (j: nat, q: Progress) => GroupOf(r, person, block, q)
  }

  /** The first `n` rounds of that loop. */
  function Groups(r: Run, person: Person, block: seq<Person>, n: nat, p: Progress): Trace
  {
    Loop(GroupRound(r, person, block), n, p)
  }

  /** The streams after the draws of `generateGroups` itself: the moderator test, then, for a moderator, the group count. */
  function GroupsDrawn(r: Run, drawn: Draws): Draws
  {
    var tested := Advance(drawn, ForumModerator);
    if Moderates(r, drawn) then Advance(tested, NumForum) else tested
  }

  /**
   * `generateGroups`: the moderator test, then `nextInt(maxNumGroupCreatedPerUser) + 1`
   * rounds for a moderator and none otherwise.
   */
  function GroupsOf(r: Run, person: Person, block: seq<Person>, p: Progress): Trace
  {
    Groups(r, person, block, GroupCountAt(r, p.drawn), p.(drawn := GroupsDrawn(r, p.drawn)))
  }

  /** Round `i` of the album loop of `generateAlbums`. */
  function AlbumOf(r: Run, person: Person, i: nat, p: Progress): Trace
  {
    var (album, drawn) := r.env.createAlbum(Farm(r.seed, p.drawn), p.forumId, person, i);
    var owner := [OwnerMembership(album, person, r.params.deltaTime)];
    var numPhotos := r.env.nextInt(r.seed, NumPhoto, Cursor(drawn, NumPhoto), r.params.maxNumPhotoPerAlbums + 1);
    var (next, drawn') := r.env.createPhotos(Farm(r.seed, Advance(drawn, NumPhoto)), album, owner, numPhotos,
                                            p.messageId);
    Trace([album], [Album], [PhotosCreated(album, owner, numPhotos, p.messageId, next)],
          Progress(drawn', p.forumId + 1, next))
  }

  /** Round `i` of the album loop, as a round of `Loop`. */
  function AlbumRound(r: Run, person: Person): (nat, Progress) -> Trace
  {
    (i: nat, q: Progress) => AlbumOf(r, person, i, q)
  }

  /** The first `n` rounds of that loop. */
  function Albums(r: Run, person: Person, n: nat, p: Progress): Trace
  {
    Loop(AlbumRound(r, person), n, p)
  }

  /** `generateAlbums`: the album count, then that many rounds. */
  function AlbumsOf(r: Run, person: Person, p: Progress): Trace
  {
    Albums(r, person, AlbumCountAt(r, person, p.drawn), p.(drawn := Advance(p.drawn, NumPhotoAlbum)))
  }

  /** `generateActivity`: the wall, the groups, the albums. */
  function Activity(r: Run, person: Person, block: seq<Person>, p: Progress): Trace
  {
    var wall := WallOf(r, person, p);
    var groups := GroupsOf(r, person, block, wall.next);
    Then(Then(wall, groups), AlbumsOf(r, person, groups.next))
  }

  /** One person's turn in the loop of `generateActivityForBlock`, as a step of `Each`. */
  function ActivityStep(r: Run, block: seq<Person>): (Person, Progress) -> Trace
  {
    (x: Person, q: Progress) => Activity(r, x, block, q)
  }

  /** The loop of `generateActivityForBlock` over the first `n` persons of `block`. */
  function Block(r: Run, block: seq<Person>, n: nat, p: Progress): Trace
    requires n <= |block|
  {
    Each(ActivityStep(r, block), block, n, p)
  }

  // ---------------------------------------------------------------------------
  // What the generation order promises

  /*
   * One unfolding of each step, stated once so that the methods below can
   * compose what their sub-steps did without unfolding the steps themselves.
   */

  lemma ForumPostsUnfold(r: Run, forum: Forum, members: seq<ForumMembership>,
                         maxPosts: nat, maxFlashmobPosts: nat, maxMembers: nat, p: Progress)
    requires maxMembers > 0
    ensures var uniform := StylePosts(r, Uniform, forum, members, maxPosts, maxMembers, p);
            ForumPosts(r, forum, members, maxPosts, maxFlashmobPosts, maxMembers, p)
            == Then(uniform, StylePosts(r, Flashmob, forum, members, maxFlashmobPosts, maxMembers, uniform.next))
  {
  }

  lemma WallUnfold(r: Run, person: Person, p: Progress)
    ensures var made := r.env.createWall(Farm(r.seed, p.drawn), p.forumId, person);
            var created := Created(made.0, Wall, made.1, p);
            WallOf(r, person, p)
            == Then(created, ForumPosts(r, made.0, [OwnerMembership(made.0, person, r.params.deltaTime)],
                                                r.params.maxNumPostPerMonth, r.params.maxNumFlashmobPostPerMonth,
                                                r.params.maxNumFriends, created.next))
  {
  }

  lemma GroupUnfold(r: Run, person: Person, block: seq<Person>, p: Progress)
    ensures var made := r.env.createGroup(Farm(r.seed, p.drawn), p.forumId, person, block);
            var created := Created(made.0, Group, made.1, p);
            GroupOf(r, person, block, p)
            == Then(created, ForumPosts(r, made.0, made.0.memberships, r.params.maxNumGroupPostPerMonth,
                                                r.params.maxNumGroupFlashmobPostPerMonth, r.params.maxNumMemberGroup,
                                  created.next))
  {
  }

  lemma GroupsUnfold(r: Run, person: Person, block: seq<Person>, n: nat, p: Progress)
    requires n > 0
    ensures var before := Groups(r, person, block, n - 1, p);
            Groups(r, person, block, n, p) == Then(before, GroupOf(r, person, block, before.next))
  {
  }

  lemma AlbumsUnfold(r: Run, person: Person, n: nat, p: Progress)
    requires n > 0
    ensures var before := Albums(r, person, n - 1, p);
            Albums(r, person, n, p) == Then(before, AlbumOf(r, person, n - 1, before.next))
  {
  }

  lemma AlbumsOfUnfold(r: Run, person: Person, p: Progress)
    ensures AlbumsOf(r, person, p)
            == Albums(r, person, AlbumCountAt(r, person, p.drawn), p.(drawn := Advance(p.drawn, NumPhotoAlbum)))
  {
  }

  lemma ActivityUnfold(r: Run, person: Person, block: seq<Person>, p: Progress)
    ensures var wall := WallOf(r, person, p);
            var groups := GroupsOf(r, person, block, wall.next);
            Activity(r, person, block, p) == Then(Then(wall, groups), AlbumsOf(r, person, groups.next))
  {
  }

  lemma BlockUnfold(r: Run, block: seq<Person>, i: nat, p: Progress)
    requires i < |block|
    ensures var before := Block(r, block, i, p);
            Block(r, block, i + 1, p) == Then(before, Activity(r, block[i], block, before.next))
  {
  }

  /** One more person of the block, logged after what the block logged so far. */
  lemma BlockNext(r: Run, block: seq<Person>, i: nat, p: Progress, l0: Logs, t: Trace, l1: Logs, mine: Trace, l2: Logs)
    requires i < |block| && t == Block(r, block, i, p) && mine == Activity(r, block[i], block, t.next)
    requires Extends(l0, t, l1) && Extends(l1, mine, l2)
    ensures Then(t, mine) == Block(r, block, i + 1, p) && Extends(l0, Then(t, mine), l2)
  {
    BlockUnfold(r, block, i, p);
    ExtendsThen(l0, t, l1, mine, l2);
  }

  /**
   * `t`, started at `p`, takes one forum id per forum, records one phase per
   * forum, and threads the message id through its calls.
   */
  ghost predicate Moves(t: Trace, p: Progress)
  {
    && t.next.forumId == p.forumId + |t.forums| && |t.phases| == |t.forums|
    && Threaded(t.calls, p.messageId, t.next.messageId)
  }

  lemma ThenMoves(a: Trace, b: Trace, p: Progress)
    requires Moves(a, p) && Moves(b, a.next)
    ensures Moves(Then(a, b), p)
  {
    ThreadedAppend(a.calls, b.calls, p.messageId, a.next.messageId, b.next.messageId);
  }

  // ---------------------------------------------------------------------------
  // What every loop promises, whatever its rounds do

  /** `u` continues `t`: its forums, phases and calls start with `t`'s. */
  ghost predicate Prefix(t: Trace, u: Trace)
  {
    && |t.forums| <= |u.forums| && u.forums[..|t.forums|] == t.forums
    && |t.phases| <= |u.phases| && u.phases[..|t.phases|] == t.phases
    && |t.calls| <= |u.calls| && u.calls[..|t.calls|] == t.calls
  }

  lemma PrefixThen(t: Trace, u: Trace, b: Trace)
    requires Prefix(t, u)
    ensures Prefix(t, Then(u, b))
  {
    var v := Then(u, b);
    assert v.forums[..|t.forums|] == u.forums[..|t.forums|];
    assert v.phases[..|t.phases|] == u.phases[..|t.phases|];
    assert v.calls[..|t.calls|] == u.calls[..|t.calls|];
  }

  /** What the first `m` rounds do is continued by the first `n >= m` rounds. */
  lemma {:induction false} LoopPrefix(round: (nat, Progress) -> Trace, m: nat, n: nat, p: Progress)
    requires m <= n
    ensures Prefix(Loop(round, m, p), Loop(round, n, p))
    decreases n
  {
    var t := Loop(round, m, p);
    if m < n {
      LoopPrefix(round, m, n - 1, p);
      PrefixThen(t, Loop(round, n - 1, p), round(n - 1, Loop(round, n - 1, p).next));
    } else {
      assert t.forums[..|t.forums|] == t.forums && t.phases[..|t.phases|] == t.phases;
      assert t.calls[..|t.calls|] == t.calls;
    }
  }

  /** Round `j`, started where rounds `0 .. j - 1` left off, comes right after them in the loop. */
  lemma LoopAt(round: (nat, Progress) -> Trace, n: nat, p: Progress, j: nat)
    requires j < n
    ensures var before := Loop(round, j, p);
            Prefix(Then(before, round(j, before.next)), Loop(round, n, p))
  {
    LoopPrefix(round, j + 1, n, p);
  }

  /** Every round creates one forum of phase `phase`, makes `k` calls and moves as `Moves` says. */
  ghost predicate Rounds(round: (nat, Progress) -> Trace, phase: Phase, k: nat)
  {
    forall j, q :: |round(j, q).forums| == 1 && round(j, q).phases == [phase] && |round(j, q).calls| == k
                   && Moves(round(j, q), q)
  }

  /** `n` such rounds create `n` forums of that phase and make `k * n` calls. */
  lemma {:induction false} LoopCreated(round: (nat, Progress) -> Trace, phase: Phase, k: nat, n: nat, p: Progress)
    requires Rounds(round, phase, k)
    ensures var t := Loop(round, n, p);
            && |t.forums| == n && t.phases == Repeat(phase, n) && |t.calls| == k * n && Moves(t, p)
    decreases n
  {
    if n > 0 {
      var before := Loop(round, n - 1, p);
      LoopCreated(round, phase, k, n - 1, p);
      ThenMoves(before, round(n - 1, before.next), p);
      assert Repeat(phase, n) == Repeat(phase, n - 1) + [phase];
      assert k * n == k * (n - 1) + k;
    }
  }
  /**
   * In a loop whose rounds each create one forum and make `k` calls, forum `j`
   * is round `j`'s forum and calls `k * j` to `k * j + k - 1` are round `j`'s calls.
   */
  lemma LoopAtIndex(round: (nat, Progress) -> Trace, phase: Phase, k: nat, n: nat, p: Progress, j: nat)
    requires j < n && Rounds(round, phase, k)
    ensures var t, before := Loop(round, n, p), Loop(round, j, p);
            var mine := round(j, before.next);
            && |t.forums| == n && t.forums[j] == mine.forums[0] && before.next.forumId == p.forumId + j
            && |t.calls| == k * n && |mine.calls| == k
            && forall m :: 0 <= m < k ==> t.calls[k * j + m] == mine.calls[m]
  {
    var t, before := Loop(round, n, p), Loop(round, j, p);
    var mine := round(j, before.next);
    LoopAt(round, n, p, j);
    LoopCreated(round, phase, k, n, p);
    LoopCreated(round, phase, k, j, p);
    var u := Then(before, mine);
    assert t.forums[j] == u.forums[j];
    forall m | 0 <= m < k
      ensures t.calls[k * j + m] == mine.calls[m]
    {
      assert t.calls[k * j + m] == u.calls[k * j + m];
    }
  }

  /** When each round's forums carry ids from the forum id it starts at, so do the loop's. */
  lemma {:induction false} LoopIds(round: (nat, Progress) -> Trace, phase: Phase, k: nat, n: nat, p: Progress)
    requires Rounds(round, phase, k)
    requires forall j, q :: IdsFrom(round(j, q).forums, q.forumId)
    ensures IdsFrom(Loop(round, n, p).forums, p.forumId)
    decreases n
  {
    if n > 0 {
      var before := Loop(round, n - 1, p);
      LoopIds(round, phase, k, n - 1, p);
      LoopCreated(round, phase, k, n - 1, p);
      IdsFromAppend(before.forums, round(n - 1, before.next).forums, p.forumId);
    }
  }

  /** What the first `m` persons produce is continued by what the first `n >= m` produce. */
  lemma {:induction false} EachPrefix(step: (Person, Progress) -> Trace, xs: seq<Person>, m: nat, n: nat, p: Progress)
    requires m <= n <= |xs|
    ensures Prefix(Each(step, xs, m, p), Each(step, xs, n, p))
    decreases n
  {
    var t := Each(step, xs, m, p);
    if m < n {
      var before := Each(step, xs, n - 1, p);
      EachPrefix(step, xs, m, n - 1, p);
      PrefixThen(t, before, step(xs[n - 1], before.next));
    } else {
      assert t.forums[..|t.forums|] == t.forums && t.phases[..|t.phases|] == t.phases;
      assert t.calls[..|t.calls|] == t.calls;
    }
  }

  /** Person `i`'s step, started where persons `0 .. i - 1` left off, comes right after theirs. */
  lemma EachAt(step: (Person, Progress) -> Trace, xs: seq<Person>, p: Progress, i: nat)
    requires i < |xs|
    ensures var before := Each(step, xs, i, p);
            Prefix(Then(before, step(xs[i], before.next)), Each(step, xs, |xs|, p))
  {
    EachPrefix(step, xs, i + 1, |xs|, p);
  }

  /** When every step moves as `Moves` says, so does the loop. */
  lemma {:induction false} EachMoves(step: (Person, Progress) -> Trace, xs: seq<Person>, n: nat, p: Progress)
    requires n <= |xs| && forall x, q :: Moves(step(x, q), q)
    ensures Moves(Each(step, xs, n, p), p)
  {
    if n > 0 {
      var before := Each(step, xs, n - 1, p);
      EachMoves(step, xs, n - 1, p);
      ThenMoves(before, step(xs[n - 1], before.next), p);
    }
  }

  /** When every step's forums carry ids from the forum id it starts at, so do the loop's. */
  lemma {:induction false} EachIds(step: (Person, Progress) -> Trace, xs: seq<Person>, n: nat, p: Progress)
    requires n <= |xs| && forall x, q :: Moves(step(x, q), q) && IdsFrom(step(x, q).forums, q.forumId)
    ensures IdsFrom(Each(step, xs, n, p).forums, p.forumId)
  {
    if n > 0 {
      var before := Each(step, xs, n - 1, p);
      EachIds(step, xs, n - 1, p);
      EachMoves(step, xs, n - 1, p);
      IdsFromAppend(before.forums, step(xs[n - 1], before.next).forums, p.forumId);
    }
  }

  /**
   * The uniform count is drawn where the streams stand, the flashmob count
   * where the uniform post generator left them; both calls get the forum and
   * the members, and the message id runs through both.
   */
  lemma ForumPostsShape(r: Run, forum: Forum, members: seq<ForumMembership>,
                        maxPosts: nat, maxFlashmobPosts: nat, maxMembers: nat, p: Progress)
    requires maxMembers > 0
    ensures var t := ForumPosts(r, forum, members, maxPosts, maxFlashmobPosts, maxMembers, p);
            var uniform := StylePosts(r, Uniform, forum, members, maxPosts, maxMembers, p).next;
            && t.forums == [] && t.phases == [] && |t.calls| == 2
            && t.calls[0] == PostsCreated(Uniform, forum, members, PostCountDrawn(r, forum, maxPosts, maxMembers, p.drawn),
                                          p.messageId, uniform.messageId)
            && t.calls[1] == PostsCreated(Flashmob, forum, members,
                                          PostCountDrawn(r, forum, maxFlashmobPosts, maxMembers, uniform.drawn),
                                          uniform.messageId, t.next.messageId)
            && Moves(t, p)
  {
    var uniform := StylePosts(r, Uniform, forum, members, maxPosts, maxMembers, p);
    var flashmob := StylePosts(r, Flashmob, forum, members, maxFlashmobPosts, maxMembers, uniform.next);
    ForumPostsUnfold(r, forum, members, maxPosts, maxFlashmobPosts, maxMembers, p);
    assert |uniform.calls| == 1 && |flashmob.calls| == 1;
  }

  /** The wall is created with the next forum id where the streams stand, and exported; two post calls follow. */
  lemma WallCreated(r: Run, person: Person, p: Progress)
    ensures var t := WallOf(r, person, p);
            && t.forums == [r.env.createWall(Farm(r.seed, p.drawn), p.forumId, person).0] && t.phases == [Wall]
            && |t.calls| == 2 && Moves(t, p)
  {
    var (wall, drawn) := r.env.createWall(Farm(r.seed, p.drawn), p.forumId, person);
    var created := Created(wall, Wall, drawn, p);
    var posts := ForumPosts(r, wall, [OwnerMembership(wall, person, r.params.deltaTime)],
                                    r.params.maxNumPostPerMonth, r.params.maxNumFlashmobPostPerMonth,
                                    r.params.maxNumFriends, created.next);
    ForumPostsShape(r, wall, [OwnerMembership(wall, person, r.params.deltaTime)], r.params.maxNumPostPerMonth,
                    r.params.maxNumFlashmobPostPerMonth, r.params.maxNumFriends, created.next);
    ThenMoves(created, posts, p);
  }

  /**
   * The wall's posts: the uniform and the flashmob generator, with the owner
   * as sole member, the uniform count drawn where the forum generator left
   * the streams.
   */
  lemma WallPosts(r: Run, person: Person, p: Progress)
    ensures var t := WallOf(r, person, p);
            var (wall, drawn) := r.env.createWall(Farm(r.seed, p.drawn), p.forumId, person);
            var owner := [OwnerMembership(wall, person, r.params.deltaTime)];
            && |t.calls| == 2 && t.calls[0].PostsCreated? && t.calls[1].PostsCreated?
            && t.calls[0].style == Uniform && t.calls[1].style == Flashmob
            && t.calls[0].forum == t.calls[1].forum == wall && t.calls[0].members == t.calls[1].members == owner
            && t.calls[0].count == PostCountDrawn(r, wall, r.params.maxNumPostPerMonth, r.params.maxNumFriends, drawn)
  {
    var (wall, drawn) := r.env.createWall(Farm(r.seed, p.drawn), p.forumId, person);
    ForumPostsShape(r, wall, [OwnerMembership(wall, person, r.params.deltaTime)], r.params.maxNumPostPerMonth,
                    r.params.maxNumFlashmobPostPerMonth, r.params.maxNumFriends, Created(wall, Wall, drawn, p).next);
  }

  /** A group is created with the next forum id where the streams stand, and exported; two post calls follow. */
  lemma GroupCreated(r: Run, person: Person, block: seq<Person>, p: Progress)
    ensures var t := GroupOf(r, person, block, p);
            && t.forums == [r.env.createGroup(Farm(r.seed, p.drawn), p.forumId, person, block).0] && t.phases == [Group]
            && |t.calls| == 2 && Moves(t, p)
  {
    var (group, drawn) := r.env.createGroup(Farm(r.seed, p.drawn), p.forumId, person, block);
    var created := Created(group, Group, drawn, p);
    var posts := ForumPosts(r, group, group.memberships, r.params.maxNumGroupPostPerMonth,
                                    r.params.maxNumGroupFlashmobPostPerMonth, r.params.maxNumMemberGroup, created.next);
    ForumPostsShape(r, group, group.memberships, r.params.maxNumGroupPostPerMonth,
                    r.params.maxNumGroupFlashmobPostPerMonth, r.params.maxNumMemberGroup, created.next);
    ThenMoves(created, posts, p);
  }

  /**
   * A group's posts: the uniform and the flashmob generator, with the group's
   * own members, the uniform count drawn where the forum generator left the
   * streams.
   */
  lemma GroupPosts(r: Run, person: Person, block: seq<Person>, p: Progress)
    ensures var t := GroupOf(r, person, block, p);
            var (group, drawn) := r.env.createGroup(Farm(r.seed, p.drawn), p.forumId, person, block);
            && |t.calls| == 2 && t.calls[0].PostsCreated? && t.calls[1].PostsCreated?
            && t.calls[0].style == Uniform && t.calls[1].style == Flashmob
            && t.calls[0].forum == t.calls[1].forum == group
            && t.calls[0].members == t.calls[1].members == group.memberships
            && t.calls[0].count
               == PostCountDrawn(r, group, r.params.maxNumGroupPostPerMonth, r.params.maxNumMemberGroup, drawn)
  {
    var (group, drawn) := r.env.createGroup(Farm(r.seed, p.drawn), p.forumId, person, block);
    ForumPostsShape(r, group, group.memberships, r.params.maxNumGroupPostPerMonth,
                    r.params.maxNumGroupFlashmobPostPerMonth, r.params.maxNumMemberGroup,
                    Created(group, Group, drawn, p).next);
  }

  /** An album is created with the next forum id where the streams stand, and exported; one photo call follows. */
  lemma AlbumCreated(r: Run, person: Person, i: nat, p: Progress)
    ensures var t := AlbumOf(r, person, i, p);
            && t.forums == [r.env.createAlbum(Farm(r.seed, p.drawn), p.forumId, person, i).0] && t.phases == [Album]
            && |t.calls| == 1 && Moves(t, p)
  {
    var t := AlbumOf(r, person, i, p);
    assert t.calls[1..] == [];
  }

  /** An album's photos: the owner as sole member, the NUM_PHOTO draw taken where the forum generator left the streams. */
  lemma AlbumPhotos(r: Run, person: Person, i: nat, p: Progress)
    requires DrawsInRange(r.env)
    ensures var t := AlbumOf(r, person, i, p);
            var (album, drawn) := r.env.createAlbum(Farm(r.seed, p.drawn), p.forumId, person, i);
            && |t.calls| == 1 && t.calls[0].PhotosCreated?
            && t.calls[0].forum == album && t.calls[0].members == [OwnerMembership(album, person, r.params.deltaTime)]
            && t.calls[0].count == r.env.nextInt(r.seed, NumPhoto, Cursor(drawn, NumPhoto), r.params.maxNumPhotoPerAlbums + 1)
            && t.calls[0].count <= r.params.maxNumPhotoPerAlbums
  {
  }

  /** Every round of the group loop creates one group and makes its two post calls. */
  lemma GroupRounds(r: Run, person: Person, block: seq<Person>)
    ensures Rounds(GroupRound(r, person, block), Group, 2)
  {
    forall j: nat, q: Progress
      ensures var t := GroupRound(r, person, block)(j, q);
              |t.forums| == 1 && t.phases == [Group] && |t.calls| == 2 && Moves(t, q)
    {
      GroupCreated(r, person, block, q);
    }
  }

  /** `n` rounds of the group loop create `n` groups, each with two post calls. */
  lemma GroupsCreated(r: Run, person: Person, block: seq<Person>, n: nat, p: Progress)
    ensures var t := Groups(r, person, block, n, p);
            && |t.forums| == n && |t.calls| == 2 * n && t.phases == Repeat(Group, n) && Moves(t, p)
  {
    GroupRounds(r, person, block);
    LoopCreated(GroupRound(r, person, block), Group, 2, n, p);
  }

  /** In `n` rounds of the group loop, each group is followed by its uniform and its flashmob posts. */
  lemma {:induction false} GroupsPosts(r: Run, person: Person, block: seq<Person>, n: nat, p: Progress)
    ensures var t := Groups(r, person, block, n, p);
            GroupCalls(t.calls, t.forums)
    decreases n
  {
    if n > 0 {
      GroupsPosts(r, person, block, n - 1, p);
      GroupPostsStep(r, person, block, n, p);
    }
  }

  /** One more group round keeps each group followed by its uniform and its flashmob posts. */
  lemma GroupPostsStep(r: Run, person: Person, block: seq<Person>, n: nat, p: Progress)
    requires n > 0
    requires var t := Groups(r, person, block, n - 1, p); GroupCalls(t.calls, t.forums)
    ensures var t := Groups(r, person, block, n, p); GroupCalls(t.calls, t.forums)
  {
    var before := Groups(r, person, block, n - 1, p);
    var g := GroupOf(r, person, block, before.next);
    GroupsUnfold(r, person, block, n, p);
    GroupCreated(r, person, block, before.next);
    GroupPosts(r, person, block, before.next);
    GroupCallsStep(before.calls, before.forums, g.calls, g.forums[0]);
  }

  /**
   * Group `j` of the loop is the forum the forum generator creates with forum
   * id `p.forumId + j`, from where the first `j` rounds left the streams.
   */
  lemma GroupsAt(r: Run, person: Person, block: seq<Person>, n: nat, p: Progress, j: nat)
    requires j < n
    ensures var t := Groups(r, person, block, n, p);
            var before := Groups(r, person, block, j, p).next;
            |t.forums| == n && t.forums[j] == r.env.createGroup(Farm(r.seed, before.drawn), p.forumId + j, person, block).0
  {
    GroupRounds(r, person, block);
    LoopAtIndex(GroupRound(r, person, block), Group, 2, n, p, j);
    GroupCreated(r, person, block, Groups(r, person, block, j, p).next);
  }

  /** Calls `2j` and `2j + 1` of the group loop are the two post calls of round `j`. */
  lemma GroupsCallsAt(r: Run, person: Person, block: seq<Person>, n: nat, p: Progress, j: nat)
    requires j < n
    ensures var t := Groups(r, person, block, n, p);
            var round := GroupOf(r, person, block, Groups(r, person, block, j, p).next);
            && |t.calls| == 2 * n && |round.calls| == 2
            && t.calls[2 * j] == round.calls[0] && t.calls[2 * j + 1] == round.calls[1]
  {
    var mine := GroupOf(r, person, block, Groups(r, person, block, j, p).next);
    GroupRounds(r, person, block);
    LoopAtIndex(GroupRound(r, person, block), Group, 2, n, p, j);
    assert mine.calls[0] == mine.calls[0 + 0];
  }

  /** The groups of `n` rounds carry the ids they were created with: consecutive, from the forum id the loop starts at. */
  lemma GroupsIds(r: Run, person: Person, block: seq<Person>, n: nat, p: Progress)
    requires KeepsForumIds(r.env)
    ensures IdsFrom(Groups(r, person, block, n, p).forums, p.forumId)
  {
    GroupRounds(r, person, block);
    forall j: nat, q: Progress
      ensures IdsFrom(GroupRound(r, person, block)(j, q).forums, q.forumId)
    {
      GroupCreated(r, person, block, q);
    }
    LoopIds(GroupRound(r, person, block), Group, 2, n, p);
  }

  /** `generateGroups` creates exactly `GroupCountAt` groups, counted where the streams stand. */
  lemma GroupsOfCreated(r: Run, person: Person, block: seq<Person>, p: Progress)
    ensures var t := GroupsOf(r, person, block, p);
            && |t.forums| == GroupCountAt(r, p.drawn) && t.phases == Repeat(Group, |t.forums|) && Moves(t, p)
  {
    GroupsCreated(r, person, block, GroupCountAt(r, p.drawn), p.(drawn := GroupsDrawn(r, p.drawn)));
  }


  /** Every group `generateGroups` creates is followed by its uniform and its flashmob posts. */
  lemma GroupsOfPosts(r: Run, person: Person, block: seq<Person>, p: Progress)
    ensures var t := GroupsOf(r, person, block, p);
            GroupCalls(t.calls, t.forums)
  {
    GroupsPosts(r, person, block, GroupCountAt(r, p.drawn), p.(drawn := GroupsDrawn(r, p.drawn)));
  }


  /** The groups `generateGroups` creates carry consecutive ids from the forum id it starts at. */
  lemma GroupsOfIds(r: Run, person: Person, block: seq<Person>, p: Progress)
    requires KeepsForumIds(r.env)
    ensures IdsFrom(GroupsOf(r, person, block, p).forums, p.forumId)
  {
    GroupsIds(r, person, block, GroupCountAt(r, p.drawn), p.(drawn := GroupsDrawn(r, p.drawn)));
  }


  /** Every round of the album loop creates one album and makes its photo call. */
  lemma AlbumRounds(r: Run, person: Person)
    ensures Rounds(AlbumRound(r, person), Album, 1)
  {
    forall i: nat, q: Progress
      ensures var t := AlbumRound(r, person)(i, q);
              |t.forums| == 1 && t.phases == [Album] && |t.calls| == 1 && Moves(t, q)
    {
      AlbumCreated(r, person, i, q);
    }
  }

  /** `n` rounds of the album loop create `n` albums, each with one photo call. */
  lemma AlbumsCreated(r: Run, person: Person, n: nat, p: Progress)
    ensures var t := Albums(r, person, n, p);
            && |t.forums| == n && |t.calls| == n && t.phases == Repeat(Album, n) && Moves(t, p)
  {
    AlbumRounds(r, person);
    LoopCreated(AlbumRound(r, person), Album, 1, n, p);
  }

  /** In `n` rounds of the album loop, each album gets its photos, at most `maxNumPhotoPerAlbums` of them. */
  lemma {:induction false} AlbumsPhotos(r: Run, person: Person, n: nat, p: Progress)
    requires DrawsInRange(r.env)
    ensures var t := Albums(r, person, n, p);
            AlbumCalls(t.calls, t.forums, person, r.params.deltaTime, r.params.maxNumPhotoPerAlbums)
    decreases n
  {
    if n > 0 {
      var before := Albums(r, person, n - 1, p);
      AlbumsPhotos(r, person, n - 1, p);
      AlbumsUnfold(r, person, n, p);
      var a := AlbumOf(r, person, n - 1, before.next);
      AlbumCreated(r, person, n - 1, before.next);
      AlbumPhotos(r, person, n - 1, before.next);
      AlbumCallsStep(before.calls, before.forums, a.calls[0], a.forums[0], person, r.params.deltaTime,
                     r.params.maxNumPhotoPerAlbums);
      assert a.calls == [a.calls[0]];
    }
  }

  /**
   * Album `i` of the loop is the forum the forum generator creates with forum
   * id `p.forumId + i` and index `i`, from where the first `i` rounds left the
   * streams.
   */
  lemma AlbumsAt(r: Run, person: Person, n: nat, p: Progress, i: nat)
    requires i < n
    ensures var t := Albums(r, person, n, p);
            var before := Albums(r, person, i, p).next;
            |t.forums| == n && t.forums[i] == r.env.createAlbum(Farm(r.seed, before.drawn), p.forumId + i, person, i).0
  {
    AlbumRounds(r, person);
    LoopAtIndex(AlbumRound(r, person), Album, 1, n, p, i);
    AlbumCreated(r, person, i, Albums(r, person, i, p).next);
  }

  /** Call `i` of the album loop is the photo call of round `i`. */
  lemma AlbumsCallsAt(r: Run, person: Person, n: nat, p: Progress, i: nat)
    requires i < n
    ensures var t := Albums(r, person, n, p);
            var round := AlbumOf(r, person, i, Albums(r, person, i, p).next);
            |t.calls| == n && |round.calls| == 1 && t.calls[i] == round.calls[0]
  {
    AlbumRounds(r, person);
    LoopAtIndex(AlbumRound(r, person), Album, 1, n, p, i);
  }

  /** The albums of `n` rounds carry the ids they were created with: consecutive, from the forum id the loop starts at. */
  lemma AlbumsIds(r: Run, person: Person, n: nat, p: Progress)
    requires KeepsForumIds(r.env)
    ensures IdsFrom(Albums(r, person, n, p).forums, p.forumId)
  {
    AlbumRounds(r, person);
    forall i: nat, q: Progress
      ensures IdsFrom(AlbumRound(r, person)(i, q).forums, q.forumId)
    {
      AlbumCreated(r, person, i, q);
    }
    LoopIds(AlbumRound(r, person), Album, 1, n, p);
  }

  /** `generateAlbums` creates exactly `AlbumCountAt` albums, counted where the streams stand. */
  lemma AlbumsOfCreated(r: Run, person: Person, p: Progress)
    ensures var t := AlbumsOf(r, person, p);
            && |t.forums| == AlbumCountAt(r, person, p.drawn) && t.phases == Repeat(Album, |t.forums|) && Moves(t, p)
  {
    AlbumsCreated(r, person, AlbumCountAt(r, person, p.drawn), p.(drawn := Advance(p.drawn, NumPhotoAlbum)));
  }

  /** Every album `generateAlbums` creates gets its photos, at most `maxNumPhotoPerAlbums` of them. */
  lemma AlbumsOfPhotos(r: Run, person: Person, p: Progress)
    requires DrawsInRange(r.env)
    ensures var t := AlbumsOf(r, person, p);
            AlbumCalls(t.calls, t.forums, person, r.params.deltaTime, r.params.maxNumPhotoPerAlbums)
  {
    AlbumsPhotos(r, person, AlbumCountAt(r, person, p.drawn), p.(drawn := Advance(p.drawn, NumPhotoAlbum)));
  }

  /** The albums `generateAlbums` creates carry consecutive ids from the forum id it starts at. */
  lemma AlbumsOfIds(r: Run, person: Person, p: Progress)
    requires KeepsForumIds(r.env)
    ensures IdsFrom(AlbumsOf(r, person, p).forums, p.forumId)
  {
    AlbumsIds(r, person, AlbumCountAt(r, person, p.drawn), p.(drawn := Advance(p.drawn, NumPhotoAlbum)));
  }

  /**
   * A person's activity: the wall first, then `GroupCountAt` groups counted
   * where the wall left the streams, then `AlbumCountAt` albums counted where
   * the groups left them.
   */
  lemma ActivityShape(r: Run, person: Person, block: seq<Person>, p: Progress)
    ensures var t := Activity(r, person, block, p);
            var wall := WallOf(r, person, p);
            var groups := GroupsOf(r, person, block, wall.next);
            var numGroups := GroupCountAt(r, wall.next.drawn);
            var numAlbums := AlbumCountAt(r, person, groups.next.drawn);
            && |t.forums| == 1 + numGroups + numAlbums
            && t.forums[0] == r.env.createWall(Farm(r.seed, p.drawn), p.forumId, person).0
            && t.phases == [Wall] + Repeat(Group, numGroups) + Repeat(Album, numAlbums)
  {
    var wall := WallOf(r, person, p);
    WallCreated(r, person, p);
    var groups := GroupsOf(r, person, block, wall.next);
    GroupsOfCreated(r, person, block, wall.next);
    AlbumsOfCreated(r, person, groups.next);
  }

  /** A person's activity takes one forum id per forum and threads the message id through all its calls. */
  lemma ActivityMoves(r: Run, person: Person, block: seq<Person>, p: Progress)
    ensures Moves(Activity(r, person, block, p), p)
  {
    var wall := WallOf(r, person, p);
    WallCreated(r, person, p);
    var groups := GroupsOf(r, person, block, wall.next);
    GroupsOfCreated(r, person, block, wall.next);
    var albums := AlbumsOf(r, person, groups.next);
    AlbumsOfCreated(r, person, groups.next);
    ThenMoves(wall, groups, p);
    ThenMoves(Then(wall, groups), albums, p);
  }

  /** A person's forums carry consecutive ids from the forum id the person starts at. */
  lemma ActivityIds(r: Run, person: Person, block: seq<Person>, p: Progress)
    requires KeepsForumIds(r.env)
    ensures IdsFrom(Activity(r, person, block, p).forums, p.forumId)
  {
    var wall := WallOf(r, person, p);
    WallCreated(r, person, p);
    var groups := GroupsOf(r, person, block, wall.next);
    GroupsOfCreated(r, person, block, wall.next);
    GroupsOfIds(r, person, block, wall.next);
    ThenIds(wall, groups, p);
    ThenMoves(wall, groups, p);
    AlbumsOfIds(r, person, groups.next);
    ThenIds(Then(wall, groups), AlbumsOf(r, person, groups.next), p);
  }

  /** A trace numbered from where it starts, followed by one numbered from where it ends, is numbered throughout. */
  lemma ThenIds(a: Trace, b: Trace, p: Progress)
    requires Moves(a, p) && IdsFrom(a.forums, p.forumId) && IdsFrom(b.forums, a.next.forumId)
    ensures IdsFrom(Then(a, b).forums, p.forumId)
  {
    IdsFromAppend(a.forums, b.forums, p.forumId);
  }

  /** Over the block loop, forum ids are taken one per forum and the message id runs through every call. */
  lemma BlockMoves(r: Run, block: seq<Person>, n: nat, p: Progress)
    requires n <= |block|
    ensures Moves(Block(r, block, n, p), p)
  {
    forall x, q ensures Moves(ActivityStep(r, block)(x, q), q) {
      ActivityMoves(r, x, block, q);
    }
    EachMoves(ActivityStep(r, block), block, n, p);
  }

  /** Over the block loop, the forums carry consecutive ids from the forum id the loop starts at. */
  lemma BlockIds(r: Run, block: seq<Person>, n: nat, p: Progress)
    requires n <= |block| && KeepsForumIds(r.env)
    ensures IdsFrom(Block(r, block, n, p).forums, p.forumId)
  {
    forall x, q ensures Moves(ActivityStep(r, block)(x, q), q) && IdsFrom(ActivityStep(r, block)(x, q).forums, q.forumId) {
      ActivityMoves(r, x, block, q);
      ActivityIds(r, x, block, q);
    }
    EachIds(ActivityStep(r, block), block, n, p);
  }

  /** What the first `m` persons of the block produce is continued by what the first `n >= m` produce. */
  lemma BlockPrefix(r: Run, block: seq<Person>, m: nat, n: nat, p: Progress)
    requires m <= n <= |block|
    ensures Prefix(Block(r, block, m, p), Block(r, block, n, p))
  {
    EachPrefix(ActivityStep(r, block), block, m, n, p);
  }

  /**
   * Person `i` of the block: right after what persons `0 .. i - 1` produced
   * come exactly the person's own wall, groups and albums.
   */
  lemma BlockAt(r: Run, block: seq<Person>, p: Progress, i: nat)
    requires i < |block|
    ensures var before := Block(r, block, i, p);
            Prefix(Then(before, Activity(r, block[i], block, before.next)), Block(r, block, |block|, p))
  {
    EachAt(ActivityStep(r, block), block, p, i);
  }

  class PersonActivityGenerator {
    const params: SafeParams
    const env: Collaborators
    var forumId: int
    var messageId: int
    /** `SN.machineId`, a static of the vocabulary class that the generator sets. */
    var machineId: int
    /** The seed of the random streams' last reset. */
    var seed: int
    /** How many draws each aspect has given since the last reset. */
    var drawn: Draws
    /** `factorTable_.extractFactors`: the persons whose activity was generated, in order. */
    var factorPersons: seq<Person>
    /** `exporter_.export(forum)`, in order. */
    var forums: seq<Forum>
    /** The phase that created each exported forum. */
    ghost var phases: seq<Phase>
    /** `exporter_.export(membership)`, in order. */
    var memberships: seq<ForumMembership>
    /** The calls to the post and photo generators, in order. */
    var calls: seq<GeneratorCall>
    /** How often `personActivitySerializer_.reset()` and `updateSerializer_.changePartition()` were called. */
    var serializerResets: nat
    var partitionChanges: nat

    ghost predicate Valid()
    {
      KeepsForumIds(env) && DrawsInRange(env)
    }

    /** The fixed inputs of the current block. */
    function Setting(): Run
      reads this`seed
    {
      Run(params, env, seed)
    }

    /** Where generation stands. */
    function Here(): Progress
      reads this`drawn, this`forumId, this`messageId
    {
      Progress(drawn, forumId, messageId)
    }

    /** The export logs as they stand. */
    ghost function Logged(): Logs
      reads this`forums, this`phases, this`memberships, this`calls
    {
      Logs(forums, phases, memberships, calls)
    }

    /**
     * Since the method began, the generator has done `t`: its forums were
     * exported, each followed by its memberships, its calls were made, and it
     * left the streams and both ids where `t` does.
     */
    twostate predicate Recorded(t: Trace)
      reads this
    {
      Extends(old(Logged()), t, Logged()) && Here() == t.next
    }

    constructor (params: SafeParams, env: Collaborators)
      requires KeepsForumIds(env) && DrawsInRange(env)
      ensures Valid() && this.params == params && this.env == env
      ensures forumId == 0 && messageId == 0 && drawn == NoDraws
      ensures factorPersons == [] && forums == [] && phases == [] && memberships == [] && calls == []
      ensures serializerResets == 0 && partitionChanges == 0
    {
      this.params := params;
      this.env := env;
      forumId := 0;
      messageId := 0;
      machineId := 0;
      seed := 0;
      drawn := NoDraws;
      factorPersons, forums, phases, memberships, calls := [], [], [], [], [];
      serializerResets, partitionChanges := 0, 0;
    }

    /** `reset`: hands the reset on to the activity serializer. */
    method Reset()
      modifies this`serializerResets
      ensures serializerResets == old(serializerResets) + 1
    {
      serializerResets := serializerResets + 1;
    }

    /** `randomFarm_.get(a).nextInt(bound)`: only aspect `a`'s stream advances. */
    method NextInt(a: Aspect, bound: nat) returns (r: nat)
      requires bound > 0 && DrawsInRange(env)
      modifies this`drawn
      ensures r == env.nextInt(seed, a, Cursor(old(drawn), a), bound) && r < bound
      ensures drawn == Advance(old(drawn), a)
    {
      DrawBelow(env, seed, a, Cursor(drawn, a), bound);
      r := env.nextInt(seed, a, Cursor(drawn, a), bound);
      drawn := Advance(drawn, a);
    }

    /** `randomFarm_.get(a).nextDouble()`: only aspect `a`'s stream advances. */
    method NextDouble(a: Aspect) returns (d: real)
      modifies this`drawn
      ensures d == env.nextDouble(seed, a, Cursor(old(drawn), a))
      ensures drawn == Advance(old(drawn), a)
    {
      d := env.nextDouble(seed, a, Cursor(drawn, a));
      drawn := Advance(drawn, a);
    }

    /** `numPostsPerGroup`: draw in [0, maxPostsPerMonth * months], scale by membership, divide by the cap. */
    method NumPostsPerGroup(forum: Forum, maxPostsPerMonth: nat, maxMembers: nat) returns (n: nat)
      requires maxMembers > 0 && DrawsInRange(env)
      modifies this`drawn
      ensures n == PostCountDrawn(Setting(), forum, maxPostsPerMonth, maxMembers, old(drawn))
      ensures drawn == Advance(old(drawn), NumPost)
    {
      var months := env.monthsSince(forum.creationDate);
      var numberPost: nat;
      if months == 0 {
        numberPost := NextInt(NumPost, maxPostsPerMonth + 1);
      } else {
        numberPost := NextInt(NumPost, maxPostsPerMonth * months + 1);
      }
      n := PostCount(numberPost, |forum.memberships|, maxMembers);
    }

    /** Exports a forum, then each of its memberships. */
    method ExportForum(phase: Phase, forum: Forum)
      modifies this`forums, this`phases, this`memberships
      ensures forums == old(forums) + [forum] && phases == old(phases) + [phase]
      ensures memberships == old(memberships) + forum.memberships
    {
      forums := forums + [forum];
      phases := phases + [phase];
      for i := 0 to |forum.memberships|
        invariant forums == old(forums) + [forum] && phases == old(phases) + [phase]
        invariant memberships == old(memberships) + forum.memberships[..i]
      {
        memberships := memberships + [forum.memberships[i]];
        assert forum.memberships[..i + 1] == forum.memberships[..i] + [forum.memberships[i]];
      }
      assert forum.memberships[..|forum.memberships|] == forum.memberships;
    }

    /** `messageId = xxxPostGenerator_.createPosts(randomFarm_, ..., messageId, exporter_)`. */
    method CreatePosts(style: PostStyle, forum: Forum, members: seq<ForumMembership>, count: nat)
      modifies this`drawn, this`messageId, this`calls
      ensures (messageId, drawn) == env.createPosts(Farm(seed, old(drawn)), style, forum, members, count, old(messageId))
      ensures calls == old(calls) + [PostsCreated(style, forum, members, count, old(messageId), messageId)]
    {
      var (next, d) := env.createPosts(Farm(seed, drawn), style, forum, members, count, messageId);
      calls := calls + [PostsCreated(style, forum, members, count, messageId, next)];
      messageId, drawn := next, d;
    }

    /** `messageId = photoGenerator_.createPhotos(randomFarm_, ..., messageId, exporter_)`. */
    method CreatePhotos(forum: Forum, members: seq<ForumMembership>, count: nat)
      modifies this`drawn, this`messageId, this`calls
      ensures (messageId, drawn) == env.createPhotos(Farm(seed, old(drawn)), forum, members, count, old(messageId))
      ensures calls == old(calls) + [PhotosCreated(forum, members, count, old(messageId), messageId)]
    {
      var (next, d) := env.createPhotos(Farm(seed, drawn), forum, members, count, messageId);
      calls := calls + [PhotosCreated(forum, members, count, messageId, next)];
      messageId, drawn := next, d;
    }

    /** One post generator for one forum, after its own `numPostsPerGroup` draw. */
    method CreateStylePosts(style: PostStyle, forum: Forum, members: seq<ForumMembership>,
                            maxPosts: nat, maxMembers: nat) returns (ghost t: Trace)
      requires Valid() && maxMembers > 0
      modifies this`drawn, this`messageId, this`calls
      ensures t == StylePosts(Setting(), style, forum, members, maxPosts, maxMembers, old(Here()))
      ensures t.forums == [] && Recorded(t)
    {
      ghost var p := Here();
      var n := NumPostsPerGroup(forum, maxPosts, maxMembers);
      CreatePosts(style, forum, members, n);
      t := StylePosts(Setting(), style, forum, members, maxPosts, maxMembers, p);
    }

    /** The uniform, then the flashmob post generator for one forum. */
    method CreateForumPosts(forum: Forum, members: seq<ForumMembership>,
                            maxPosts: nat, maxFlashmobPosts: nat, maxMembers: nat)
      returns (ghost t: Trace)
      requires Valid() && maxMembers > 0
      modifies this`drawn, this`messageId, this`calls
      ensures t == ForumPosts(Setting(), forum, members, maxPosts, maxFlashmobPosts, maxMembers, old(Here()))
      ensures t.forums == [] && Recorded(t)
    {
      ghost var p, l0 := Here(), Logged();
      ghost var uniform := CreateStylePosts(Uniform, forum, members, maxPosts, maxMembers);
      ghost var l1 := Logged();
      ghost var flashmob := CreateStylePosts(Flashmob, forum, members, maxFlashmobPosts, maxMembers);
      ExtendsThen(l0, uniform, l1, flashmob, Logged());
      t := Then(uniform, flashmob);
      ForumPostsUnfold(Setting(), forum, members, maxPosts, maxFlashmobPosts, maxMembers, p);
    }

    /** `forumId++` goes to `forum`, which was created by `phase` and left the streams at `drawn'`; `forum` is exported. */
    method CreateForum(phase: Phase, forum: Forum, drawn': Draws) returns (ghost t: Trace)
      modifies this`forumId, this`drawn, this`forums, this`phases, this`memberships
      ensures t == Created(forum, phase, drawn', old(Here())) && Recorded(t)
    {
      t := Created(forum, phase, drawn', Here());
      forumId := forumId + 1;
      drawn := drawn';
      ExportForum(phase, forum);
      assert AllMemberships([forum]) == forum.memberships by { assert [forum][..0] == []; }
    }

    /** `generateWall`: the wall takes the next forum id; its two post generators get the person as sole member. */
    method GenerateWall(person: Person) returns (ghost t: Trace)
      requires Valid()
      modifies this`forumId, this`drawn, this`messageId, this`forums, this`phases, this`memberships, this`calls
      ensures t == WallOf(Setting(), person, old(Here())) && Recorded(t)
    {
      ghost var p, l0 := Here(), Logged();
      var (wall, d) := env.createWall(Farm(seed, drawn), forumId, person);
      ghost var created := CreateForum(Wall, wall, d);
      ghost var l1 := Logged();
      var owner := [OwnerMembership(wall, person, params.deltaTime)];
      ghost var posts := CreateForumPosts(wall, owner, params.maxNumPostPerMonth, params.maxNumFlashmobPostPerMonth,
                                          params.maxNumFriends);
      ExtendsThen(l0, created, l1, posts, Logged());
      t := Then(created, posts);
      WallUnfold(Setting(), person, p);
    }

    /** One iteration of the group loop of `generateGroups`: the next forum id goes to a new group, then its posts. */
    method GenerateGroup(person: Person, block: seq<Person>) returns (ghost t: Trace)
      requires Valid()
      modifies this`forumId, this`drawn, this`messageId, this`forums, this`phases, this`memberships, this`calls
      ensures t == GroupOf(Setting(), person, block, old(Here())) && Recorded(t)
    {
      ghost var p, l0 := Here(), Logged();
      var (group, d) := env.createGroup(Farm(seed, drawn), forumId, person, block);
      ghost var created := CreateForum(Group, group, d);
      ghost var l1 := Logged();
      ghost var posts := CreateForumPosts(group, group.memberships, params.maxNumGroupPostPerMonth,
                                          params.maxNumGroupFlashmobPostPerMonth, params.maxNumMemberGroup);
      ExtendsThen(l0, created, l1, posts, Logged());
      t := Then(created, posts);
      GroupUnfold(Setting(), person, block, p);
    }

    /**
     * `generateGroups`: one moderator test; a moderator then creates
     * `nextInt(maxNumGroupCreatedPerUser) + 1` groups, each exported and given its posts.
     */
    method GenerateGroups(person: Person, block: seq<Person>) returns (ghost t: Trace)
      requires Valid()
      modifies this`forumId, this`drawn, this`messageId, this`forums, this`phases, this`memberships, this`calls
      ensures t == GroupsOf(Setting(), person, block, old(Here())) && Recorded(t)
    {
      ghost var r, p := Setting(), Here();
      var moderatorProb := NextDouble(ForumModerator);
      if moderatorProb <= params.groupModeratorProb {
        var draw := NextInt(NumForum, params.maxNumGroupCreatedPerUser);
        var numGroup := draw + 1;
        ghost var q := Here();
        CursorOther(p.drawn, ForumModerator, NumForum);
        assert numGroup == GroupCountAt(r, p.drawn) && q == p.(drawn := GroupsDrawn(r, p.drawn));
        t := Groups(r, person, block, 0, q);
        ExtendsIdle(Logged(), q);
        for j := 0 to numGroup
          invariant t == Groups(r, person, block, j, q) && Recorded(t)
        {
          ghost var l := Logged();
          ghost var g := GenerateGroup(person, block);
          ExtendsThen(old(Logged()), t, l, g, Logged());
          GroupsUnfold(r, person, block, j + 1, q);
          t := Then(t, g);
        }
      } else {
        t := Idle(Here());
        ExtendsIdle(Logged(), Here());
      }
    }

    /** One iteration of the album loop of `generateAlbums`: album `i` takes the next forum id, then its photos. */
    method GenerateAlbum(person: Person, i: nat) returns (ghost t: Trace)
      requires Valid()
      modifies this`forumId, this`drawn, this`messageId, this`forums, this`phases, this`memberships, this`calls
      ensures t == AlbumOf(Setting(), person, i, old(Here())) && Recorded(t)
    {
      ghost var p := Here();
      var (album, d) := env.createAlbum(Farm(seed, drawn), forumId, person, i);
      ghost var created := CreateForum(Album, album, d);
      var owner := [OwnerMembership(album, person, params.deltaTime)];
      var numPhotos := NextInt(NumPhoto, params.maxNumPhotoPerAlbums + 1);
      CreatePhotos(album, owner, numPhotos);
      t := AlbumOf(Setting(), person, i, p);
    }

    /** The album loop of `generateAlbums`: album `i` for each `i < numAlbums`, each exported and given its photos. */
    method GenerateAlbumLoop(person: Person, numAlbums: nat) returns (ghost t: Trace)
      requires Valid()
      modifies this`forumId, this`drawn, this`messageId, this`forums, this`phases, this`memberships, this`calls
      ensures t == Albums(Setting(), person, numAlbums, old(Here())) && Recorded(t)
    {
      t := Albums(Setting(), person, 0, Here());
      ExtendsIdle(Logged(), Here());
      for i := 0 to numAlbums
        invariant t == Albums(Setting(), person, i, old(Here())) && Recorded(t)
      {
        ghost var l := Logged();
        ghost var a := GenerateAlbum(person, i);
        ExtendsThen(old(Logged()), t, l, a, Logged());
        AlbumsUnfold(Setting(), person, i + 1, old(Here()));
        t := Then(t, a);
      }
    }

    /** `generateAlbums`: the album count, then per album a photo count in [0, maxNumPhotoPerAlbums]. */
    method GenerateAlbums(person: Person) returns (ghost t: Trace)
      requires Valid()
      modifies this`forumId, this`drawn, this`messageId, this`forums, this`phases, this`memberships, this`calls
      ensures t == AlbumsOf(Setting(), person, old(Here())) && Recorded(t)
    {
      ghost var p := Here();
      var numOfmonths := env.monthsActive(person);
      var numPhotoAlbums := NextInt(NumPhotoAlbum, params.maxNumPhotoAlbumsPerMonth + 1);
      if numOfmonths != 0 {
        numPhotoAlbums := numOfmonths * numPhotoAlbums;
      }
      assert numPhotoAlbums == AlbumCountAt(Setting(), person, p.drawn);
      t := GenerateAlbumLoop(person, numPhotoAlbums);
      AlbumsOfUnfold(Setting(), person, p);
    }

    /** `generateActivity`: the person's factors are extracted, then wall, groups and albums are generated. */
    method GenerateActivity(person: Person, block: seq<Person>) returns (ghost t: Trace)
      requires Valid()
      modifies this`factorPersons, this`forumId, this`drawn, this`messageId, this`forums, this`phases,
               this`memberships, this`calls
      ensures factorPersons == old(factorPersons) + [person]
      ensures t == Activity(Setting(), person, block, old(Here())) && Recorded(t)
    {
      factorPersons := factorPersons + [person];
      ghost var r, p := Setting(), Here();
      ghost var l0 := Logged();
      ghost var w := GenerateWall(person);
      ghost var l1 := Logged();
      ghost var g := GenerateGroups(person, block);
      ghost var l2 := Logged();
      ghost var a := GenerateAlbums(person);
      ExtendsThen(l0, w, l1, g, l2);
      ExtendsThen(l0, Then(w, g), l2, a, Logged());
      t := Then(Then(w, g), a);
      ActivityUnfold(r, person, block, p);
    }

    /** One round of the block loop: the person's activity, then a partition change when update streams are on. */
    method GenerateBlockPerson(person: Person, block: seq<Person>) returns (ghost t: Trace)
      requires Valid()
      modifies this`factorPersons, this`forumId, this`drawn, this`messageId, this`forums, this`phases,
               this`memberships, this`calls, this`partitionChanges
      ensures factorPersons == old(factorPersons) + [person]
      ensures t == Activity(Setting(), person, block, old(Here())) && Recorded(t)
      ensures partitionChanges == old(partitionChanges) + (if params.updateStreams then 1 else 0)
    {
      t := GenerateActivity(person, block);
      if params.updateStreams {
        partitionChanges := partitionChanges + 1;
      }
    }

    /**
     * `generateActivityForBlock`: resets the random streams, both id counters and
     * the machine id to the block's seed, resets the serializer, then generates
     * every person in order, changing the update partition after each one when
     * update streams are on.
     */
    method GenerateActivityForBlock(blockSeed: int, block: seq<Person>) returns (ghost t: Trace)
      requires Valid()
      modifies this`seed, this`drawn, this`forumId, this`messageId, this`machineId, this`serializerResets,
               this`factorPersons, this`forums, this`phases, this`memberships, this`calls, this`partitionChanges
      ensures machineId == blockSeed && seed == blockSeed && serializerResets == old(serializerResets) + 1
      ensures BlockDone(Run(params, env, blockSeed), block, |block|, Progress(NoDraws, 0, 0),
                        old(Logged()), old(partitionChanges), old(factorPersons))
      ensures t == Block(Run(params, env, blockSeed), block, |block|, Progress(NoDraws, 0, 0))
    {
      StartBlock(blockSeed, block, old(Logged()), old(partitionChanges), old(factorPersons));
      GenerateBlockLoop(block, Run(params, env, blockSeed), Progress(NoDraws, 0, 0),
                        old(Logged()), old(partitionChanges), old(factorPersons));
      t := Block(Run(params, env, blockSeed), block, |block|, Progress(NoDraws, 0, 0));
    }

    /**
     * The resets `generateActivityForBlock` begins with; afterwards the block
     * loop stands before its first person.
     */
    method StartBlock(blockSeed: int, ghost block: seq<Person>, ghost l0: Logs, ghost changes0: nat,
                      ghost persons0: seq<Person>)
      requires l0 == Logged() && changes0 == partitionChanges && persons0 == factorPersons
      modifies this`seed, this`drawn, this`forumId, this`messageId, this`machineId, this`serializerResets
      ensures BlockDone(Run(params, env, blockSeed), block, 0, Progress(NoDraws, 0, 0), l0, changes0, persons0)
      ensures machineId == blockSeed && seed == blockSeed && serializerResets == old(serializerResets) + 1
    {
      seed, drawn := blockSeed, NoDraws;
      forumId := 0;
      messageId := 0;
      machineId := blockSeed;
      Reset();
      ExtendsIdle(l0, Progress(NoDraws, 0, 0));
      assert block[..0] == [];
    }

    /**
     * The state of the block loop after its first `n` persons: the logs hold
     * what `Block` says those persons do, the streams and ids stand where it
     * leaves them, the partition changed once per person when update streams
     * are on, and the factor generator has seen exactly those persons.
     */
    ghost predicate BlockDone(r: Run, block: seq<Person>, n: nat, p: Progress, l0: Logs,
                              changes0: nat, persons0: seq<Person>)
      reads this
      requires n <= |block|
    {
      var t := Block(r, block, n, p);
      && r == Setting() && Extends(l0, t, Logged()) && Here() == t.next
      && partitionChanges == changes0 + (if params.updateStreams then n else 0)
      && factorPersons == persons0 + block[..n]
    }

    /** The loop of `generateActivityForBlock`: each person of the block in order. */
    method GenerateBlockLoop(block: seq<Person>, ghost r: Run, ghost p: Progress, ghost l0: Logs,
                             ghost changes0: nat, ghost persons0: seq<Person>)
      requires Valid() && BlockDone(r, block, 0, p, l0, changes0, persons0)
      modifies this`factorPersons, this`forumId, this`drawn, this`messageId, this`forums, this`phases,
               this`memberships, this`calls, this`partitionChanges
      ensures BlockDone(r, block, |block|, p, l0, changes0, persons0)
    {
      for i := 0 to |block|
        invariant BlockDone(r, block, i, p, l0, changes0, persons0)
      {
        GenerateBlockRound(block, i, r, p, l0, changes0, persons0);
      }
    }

    /** Round `i` of the block loop: person `i` continues what persons `0 .. i - 1` did. */
    method GenerateBlockRound(block: seq<Person>, i: nat, ghost r: Run, ghost p: Progress, ghost l0: Logs,
                              ghost changes0: nat, ghost persons0: seq<Person>)
      requires Valid() && i < |block| && BlockDone(r, block, i, p, l0, changes0, persons0)
      modifies this`factorPersons, this`forumId, this`drawn, this`messageId, this`forums, this`phases,
               this`memberships, this`calls, this`partitionChanges
      ensures BlockDone(r, block, i + 1, p, l0, changes0, persons0)
    {
      ghost var t := Block(r, block, i, p);
      ghost var l := Logged();
      ghost var f := factorPersons;
      ghost var mine := GenerateBlockPerson(block[i], block);
      BlockNext(r, block, i, p, l0, t, l, mine, Logged());
      TakeOneMore(persons0, block, i, f, factorPersons);
    }
  }
}
