# LDBC SNB activity generation: a Dafny model

This project models the core of the LDBC Social Network Benchmark data
generator's activity stage.

- **The per-block orchestrator.** `PersonActivityGenerator` creates the walls, groups and albums of each person in a block. It numbers the forums, threads the message id through the post and photo generators, and decides how many groups, albums, posts and photos there are.
- **The two activity serialisers.**
  - CSV: seventeen `|`-separated files, each with a header row.
  - Turtle: RDF statements in one file, with memberships and likes numbered by counters that `reset` zeroes.
- **The `Comment` record.**
- **The configuration layering of `ConfigParser`.** Built-in defaults come first, then a named scale-factor preset, then the explicit properties, and finally one thread in standalone mode.

Modules, one per source file:

- `ActivityGeneration` (`activity_generator.dfy`).
- `CsvActivity` (`csv_activity.dfy`).
- `TurtleActivity` (`turtle_activity.dfy`).
- `Comments` (`comment.dfy`).
- `Config` (`config_parser.dfy`).

Shared modules:

- `Wrappers`: `Option`, `Result` and `Outcome`.
- `Entities`: the value types `Person`, `Forum`, `ForumMembership`, `Post`, `Photo`, `Like` and the message fields.
- `JavaText`: the decimal text `Long.toString` gives.

Each source class whose fields change becomes a Dafny class.

- **Generator.** Its counters, its random streams and its logs are fields, with one log per receiver of its calls (exporter, factor table, post and photo generators, serialisers). Each method is proved to log exactly what a specification function says, from where generation stood: `WallOf`, `GroupsOf`, `AlbumsOf`, `Activity` and `Block`. Lemmas about those functions then state the counts, the forum ids, the order of forums and calls, and the threading of the message id.
- **CSV serialiser.** Each writer is an element of an `array` of row sequences. Each `serialize` method is proved to append exactly the rows of a specification function. Lemmas then state where those rows go and that they fit their headers.
- **Turtle serialiser.** It writes abstract statements (the `Turtle.AddTriple` / `Turtle.createTripleSPO` call that produces each). Lemmas state which objects each predicate receives and that every abbreviated block is closed.
- **`ConfigParser`.** It sets keys on a `Configuration` one at a time in loops. `readConfig` is proved equal to the layering function `Layered`, and the override rules are lemmas about `Layered`.

## Model

Source paths are relative to the repository root.

| member | source | states |
|---|---|---|
| ActivityGeneration.ActiveMonths | src/main/java/ldbc/snb/datagen/generator/PersonActivityGenerator.java:137-141 | a forum or person with 0 months counts as active for one month; never fewer months than given |
| ActivityGeneration.PostDrawBoundIsPerMonth | src/main/java/ldbc/snb/datagen/generator/PersonActivityGenerator.java:137-141 | the post draw's bound is maxPostsPerMonth × max(1, months) + 1 in both branches, hence positive |
| ActivityGeneration.PostCountZero | src/main/java/ldbc/snb/datagen/generator/PersonActivityGenerator.java:142 | no posts when the forum has no members or the draw is 0 |
| ActivityGeneration.PostCountIsFloor | src/main/java/ldbc/snb/datagen/generator/PersonActivityGenerator.java:142 | the post count is the floor of draw × members / maxMembers; 0 while the product is below the cap |
| ActivityGeneration.PostCountMonotoneInMembers | src/main/java/ldbc/snb/datagen/generator/PersonActivityGenerator.java:142 | for a fixed draw, more members never give fewer posts |
| ActivityGeneration.PostCountMonotoneInDraw | src/main/java/ldbc/snb/datagen/generator/PersonActivityGenerator.java:142 | for fixed members, a larger draw never gives fewer posts |
| ActivityGeneration.PostDrawBoundMonotoneInMonths | src/main/java/ldbc/snb/datagen/generator/PersonActivityGenerator.java:135-141 | a longer-lived forum never has a smaller post-draw range |
| ActivityGeneration.PostCountBounded | src/main/java/ldbc/snb/datagen/generator/PersonActivityGenerator.java:133-143 | any draw the rule can make gives at most the count of the largest draw, maxPostsPerMonth × max(1, months) |
| ActivityGeneration.GroupCount | src/main/java/ldbc/snb/datagen/generator/PersonActivityGenerator.java:89-91 | the group count is 0 exactly when the moderator test fails, and at most maxNumGroupCreatedPerUser for a draw below that bound |
| ActivityGeneration.AlbumCountBounds | src/main/java/ldbc/snb/datagen/generator/PersonActivityGenerator.java:110-114 | the album count is at most maxNumPhotoAlbumsPerMonth × max(1, months) for a draw in range; 0 exactly when the draw is 0; the draw itself when months ≤ 1 |
| ActivityGeneration.DrawBelow | src/main/java/ldbc/snb/datagen/generator/PersonActivityGenerator.java:91 | a `nextInt(bound)` draw lies below its bound, whatever the seed, aspect and position in the stream |
| ActivityGeneration.CursorOther | src/main/java/ldbc/snb/datagen/generator/PersonActivityGenerator.java:89-91 | a draw from one aspect's stream moves that stream on by one and leaves every other stream where it was |
| ActivityGeneration.AllMembershipsAppend | src/main/java/ldbc/snb/datagen/generator/PersonActivityGenerator.java:72-75 | exporting forums one after another exports their memberships in forum order |
| ActivityGeneration.ThreadedAppend | src/main/java/ldbc/snb/datagen/generator/PersonActivityGenerator.java:83-84 | two runs of generator calls, each passing on the message id the previous call returned, join into one such run |
| ActivityGeneration.OwnerMembership | src/main/java/ldbc/snb/datagen/generator/PersonActivityGenerator.java:78-80 | the wall's and album's single membership names the forum and the person |
| ActivityGeneration.GroupCallsStep | src/main/java/ldbc/snb/datagen/generator/PersonActivityGenerator.java:92-103 | after each group, calls 2k and 2k+1 are the uniform and flashmob posts of group k, with that group's memberships |
| ActivityGeneration.AlbumCallsStep | src/main/java/ldbc/snb/datagen/generator/PersonActivityGenerator.java:115-130 | after each album, call k is the photos of album k: owner as sole member, at most maxNumPhotoPerAlbums photos |
| ActivityGeneration.IdsFromAppend | src/main/java/ldbc/snb/datagen/generator/PersonActivityGenerator.java:93 | consecutive runs of forum ids join into one run |
| ActivityGeneration.IdsFromIncreasing | src/main/java/ldbc/snb/datagen/generator/PersonActivityGenerator.java:116 | forums numbered consecutively have strictly increasing, hence distinct, ids |
| ActivityGeneration.LoopCreated | src/main/java/ldbc/snb/datagen/generator/PersonActivityGenerator.java:92-103 | a `for` loop whose rounds each create one forum of one phase and make k calls creates n forums of that phase and makes k × n calls; forumId moves on by n and the message id is threaded |
| ActivityGeneration.LoopAtIndex | src/main/java/ldbc/snb/datagen/generator/PersonActivityGenerator.java:92-103 | in such a loop, forum j is round j's forum, round j starts at forum id start + j, and calls k·j … k·j + k − 1 are round j's calls |
| ActivityGeneration.ForumPostsShape | src/main/java/ldbc/snb/datagen/generator/PersonActivityGenerator.java:101-102 | uniform then flashmob call on the same forum and members; the uniform count is drawn where the streams stand, the flashmob count where the uniform post generator left them; message id threaded through both |
| ActivityGeneration.WallCreated | src/main/java/ldbc/snb/datagen/generator/PersonActivityGenerator.java:71-75 | the wall is what createWall returns for the next forum id and the streams as they stand; it is exported as a wall; two calls follow; forumId moves on by one |
| ActivityGeneration.WallPosts | src/main/java/ldbc/snb/datagen/generator/PersonActivityGenerator.java:78-84 | the wall's two post calls are uniform then flashmob, on the wall, with the owner as sole member; the uniform count is the NUM_POST draw with maxNumPostPerMonth and maxNumFriends where createWall left the streams |
| ActivityGeneration.GroupCreated | src/main/java/ldbc/snb/datagen/generator/PersonActivityGenerator.java:93-98 | a group is what createGroup returns for the next forum id and the streams as they stand; exported as a group; two calls follow |
| ActivityGeneration.GroupPosts | src/main/java/ldbc/snb/datagen/generator/PersonActivityGenerator.java:100-102 | a group's two post calls are uniform then flashmob, on the group, with the group's own memberships; the uniform count is drawn with maxNumGroupPostPerMonth and maxNumMemberGroup where createGroup left the streams |
| ActivityGeneration.AlbumCreated | src/main/java/ldbc/snb/datagen/generator/PersonActivityGenerator.java:116-121 | an album is what createAlbum returns for the next forum id and the streams as they stand; exported as an album; one call follows |
| ActivityGeneration.AlbumPhotos | src/main/java/ldbc/snb/datagen/generator/PersonActivityGenerator.java:123-129 | an album's photo call has the owner as sole member and as count the NUM_PHOTO draw taken where createAlbum left the streams, at most maxNumPhotoPerAlbums |
| ActivityGeneration.GroupRounds | src/main/java/ldbc/snb/datagen/generator/PersonActivityGenerator.java:92-103 | every round of the group loop creates one group and makes two calls |
| ActivityGeneration.GroupsCreated | src/main/java/ldbc/snb/datagen/generator/PersonActivityGenerator.java:92-103 | n rounds of the group loop create n groups and 2n calls, forumId moving on by n |
| ActivityGeneration.GroupsPosts | src/main/java/ldbc/snb/datagen/generator/PersonActivityGenerator.java:92-103 | in n rounds of the group loop, each group is followed by its uniform and its flashmob calls (GroupCalls) |
| ActivityGeneration.GroupPostsStep | src/main/java/ldbc/snb/datagen/generator/PersonActivityGenerator.java:92-103 | one more round of the group loop keeps GroupCalls |
| ActivityGeneration.GroupsAt | src/main/java/ldbc/snb/datagen/generator/PersonActivityGenerator.java:92-93 | group j of the loop is what createGroup returns for forum id start + j and the streams where rounds 0 … j − 1 left them |
| ActivityGeneration.GroupsCallsAt | src/main/java/ldbc/snb/datagen/generator/PersonActivityGenerator.java:100-102 | calls 2j and 2j + 1 of the group loop are round j's two post calls |
| ActivityGeneration.GroupsIds | src/main/java/ldbc/snb/datagen/generator/PersonActivityGenerator.java:93 | the groups of the loop carry consecutive ids from the forum id the loop starts at |
| ActivityGeneration.GroupsOfCreated | src/main/java/ldbc/snb/datagen/generator/PersonActivityGenerator.java:87-92 | `generateGroups` creates exactly GroupCountAt groups: the moderator and NUM_FORUM draws where the streams stand |
| ActivityGeneration.GroupsOfPosts | src/main/java/ldbc/snb/datagen/generator/PersonActivityGenerator.java:87-103 | every group `generateGroups` creates is followed by its uniform and flashmob calls |
| ActivityGeneration.GroupsOfIds | src/main/java/ldbc/snb/datagen/generator/PersonActivityGenerator.java:87-93 | the groups `generateGroups` creates carry consecutive ids |
| ActivityGeneration.AlbumRounds | src/main/java/ldbc/snb/datagen/generator/PersonActivityGenerator.java:115-130 | every round of the album loop creates one album and makes one call |
| ActivityGeneration.AlbumsCreated | src/main/java/ldbc/snb/datagen/generator/PersonActivityGenerator.java:115-130 | n rounds of the album loop create n albums and n calls, forumId moving on by n |
| ActivityGeneration.AlbumsPhotos | src/main/java/ldbc/snb/datagen/generator/PersonActivityGenerator.java:115-130 | in n rounds of the album loop, call k is album k's photos, owner as sole member, at most maxNumPhotoPerAlbums (AlbumCalls) |
| ActivityGeneration.AlbumsAt | src/main/java/ldbc/snb/datagen/generator/PersonActivityGenerator.java:115-116 | album i of the loop is what createAlbum returns for forum id start + i, index i and the streams where rounds 0 … i − 1 left them |
| ActivityGeneration.AlbumsCallsAt | src/main/java/ldbc/snb/datagen/generator/PersonActivityGenerator.java:128-129 | call i of the album loop is round i's photo call |
| ActivityGeneration.AlbumsIds | src/main/java/ldbc/snb/datagen/generator/PersonActivityGenerator.java:116 | the albums of the loop carry consecutive ids |
| ActivityGeneration.AlbumsOfCreated | src/main/java/ldbc/snb/datagen/generator/PersonActivityGenerator.java:108-115 | `generateAlbums` creates exactly AlbumCountAt albums: the person's months and the NUM_PHOTO_ALBUM draw where the streams stand |
| ActivityGeneration.AlbumsOfPhotos | src/main/java/ldbc/snb/datagen/generator/PersonActivityGenerator.java:108-131 | every album `generateAlbums` creates gets its photo call, at most maxNumPhotoPerAlbums photos |
| ActivityGeneration.AlbumsOfIds | src/main/java/ldbc/snb/datagen/generator/PersonActivityGenerator.java:108-116 | the albums `generateAlbums` creates carry consecutive ids |
| ActivityGeneration.ActivityShape | src/main/java/ldbc/snb/datagen/generator/PersonActivityGenerator.java:54-56 | a person's forums are the wall first, then GroupCountAt groups counted where the wall left the streams, then AlbumCountAt albums counted where the groups left them; phases wall, groups, albums in that order |
| ActivityGeneration.ActivityMoves | src/main/java/ldbc/snb/datagen/generator/PersonActivityGenerator.java:54-56 | a person's activity takes one forum id per forum and threads the message id through every call |
| ActivityGeneration.ActivityIds | src/main/java/ldbc/snb/datagen/generator/PersonActivityGenerator.java:54-56 | a person's forums carry consecutive ids from the forum id the person starts at |
| ActivityGeneration.ThenIds | src/main/java/ldbc/snb/datagen/generator/PersonActivityGenerator.java:71 | a stretch numbered from where it starts, followed by one numbered from where it ends, is numbered throughout |
| ActivityGeneration.BlockNext | src/main/java/ldbc/snb/datagen/generator/PersonActivityGenerator.java:154-156 | one more person of the block: its activity is logged right after the block so far |
| ActivityGeneration.BlockMoves | src/main/java/ldbc/snb/datagen/generator/PersonActivityGenerator.java:147-156 | over the block, forum ids are taken one per forum and the message id runs through every call |
| ActivityGeneration.BlockIds | src/main/java/ldbc/snb/datagen/generator/PersonActivityGenerator.java:147-156 | over the block, the forums carry consecutive ids from the forum id the loop starts at |
| ActivityGeneration.BlockPrefix | src/main/java/ldbc/snb/datagen/generator/PersonActivityGenerator.java:154-156 | what the first m persons produce is continued by what the first n ≥ m produce |
| ActivityGeneration.BlockAt | src/main/java/ldbc/snb/datagen/generator/PersonActivityGenerator.java:154-156 | person i's own wall, groups and albums come right after what persons 0 … i − 1 produced |
| ActivityGeneration.PersonActivityGenerator.constructor | src/main/java/ldbc/snb/datagen/generator/PersonActivityGenerator.java:36-49 | both counters start at 0, the streams are undrawn, every log is empty |
| ActivityGeneration.PersonActivityGenerator.Reset | src/main/java/ldbc/snb/datagen/generator/PersonActivityGenerator.java:65-67 | `reset` resets the activity serialiser once and changes nothing else |
| ActivityGeneration.PersonActivityGenerator.NextInt | src/main/java/ldbc/snb/datagen/generator/PersonActivityGenerator.java:91 | a draw returns the aspect's next value, below the bound, and advances only that aspect's stream |
| ActivityGeneration.PersonActivityGenerator.NextDouble | src/main/java/ldbc/snb/datagen/generator/PersonActivityGenerator.java:89 | a double draw returns the aspect's next value and advances only that aspect's stream |
| ActivityGeneration.PersonActivityGenerator.NumPostsPerGroup | src/main/java/ldbc/snb/datagen/generator/PersonActivityGenerator.java:133-143 | the post count is PostCountDrawn: PostCount of the NUM_POST stream's next draw with the bound of either branch; only that stream advances |
| ActivityGeneration.PersonActivityGenerator.ExportForum | src/main/java/ldbc/snb/datagen/generator/PersonActivityGenerator.java:72-75 | the forum is exported, then each of its memberships in order |
| ActivityGeneration.PersonActivityGenerator.CreatePosts | src/main/java/ldbc/snb/datagen/generator/PersonActivityGenerator.java:83 | messageId and the streams become what the post generator returns when handed the streams; the call is logged with the ids in and out |
| ActivityGeneration.PersonActivityGenerator.CreatePhotos | src/main/java/ldbc/snb/datagen/generator/PersonActivityGenerator.java:129 | messageId and the streams become what the photo generator returns when handed the streams; the call is logged |
| ActivityGeneration.PersonActivityGenerator.CreateStylePosts | src/main/java/ldbc/snb/datagen/generator/PersonActivityGenerator.java:83 | the logs gain exactly StylePosts: the NUM_POST draw, then one post call with that count |
| ActivityGeneration.PersonActivityGenerator.CreateForumPosts | src/main/java/ldbc/snb/datagen/generator/PersonActivityGenerator.java:101-102 | the logs gain exactly ForumPosts: by ForumPostsShape, a uniform call counted where the streams stand, then a flashmob call counted where the uniform generator left them |
| ActivityGeneration.PersonActivityGenerator.CreateForum | src/main/java/ldbc/snb/datagen/generator/PersonActivityGenerator.java:71-75 | `forumId++` goes to the forum, the streams stand where the forum generator left them, and the forum is exported with its memberships |
| ActivityGeneration.PersonActivityGenerator.GenerateWall | src/main/java/ldbc/snb/datagen/generator/PersonActivityGenerator.java:69-85 | the logs gain exactly WallOf: by WallCreated and WallPosts, the wall with the next id, then its two post calls with the owner as sole member |
| ActivityGeneration.PersonActivityGenerator.GenerateGroup | src/main/java/ldbc/snb/datagen/generator/PersonActivityGenerator.java:93-102 | the logs gain exactly GroupOf: by GroupCreated and GroupPosts, a group with the next id, then two post calls with its own memberships |
| ActivityGeneration.PersonActivityGenerator.GenerateGroups | src/main/java/ldbc/snb/datagen/generator/PersonActivityGenerator.java:87-106 | the logs gain exactly GroupsOf: by GroupsOfCreated, GroupsAt, GroupsOfPosts and GroupsOfIds, GroupCountAt groups with consecutive ids, group j from createGroup, each followed by its two post calls |
| ActivityGeneration.PersonActivityGenerator.GenerateAlbum | src/main/java/ldbc/snb/datagen/generator/PersonActivityGenerator.java:116-129 | the logs gain exactly AlbumOf: by AlbumCreated and AlbumPhotos, album i with the next id, then its photo call with at most maxNumPhotoPerAlbums photos |
| ActivityGeneration.PersonActivityGenerator.GenerateAlbumLoop | src/main/java/ldbc/snb/datagen/generator/PersonActivityGenerator.java:115-130 | the logs gain exactly Albums: by AlbumsCreated, AlbumsAt and AlbumsPhotos, numAlbums albums with consecutive ids, album i from createAlbum with index i, each with its photo call |
| ActivityGeneration.PersonActivityGenerator.GenerateAlbums | src/main/java/ldbc/snb/datagen/generator/PersonActivityGenerator.java:108-131 | the logs gain exactly AlbumsOf: by AlbumsOfCreated, AlbumCountAt albums; by AlbumCountBounds at most maxNumPhotoAlbumsPerMonth per active month |
| ActivityGeneration.PersonActivityGenerator.GenerateActivity | src/main/java/ldbc/snb/datagen/generator/PersonActivityGenerator.java:51-56 | the person's factors are extracted and the logs gain exactly Activity: by ActivityShape the wall first, then GroupCountAt groups and AlbumCountAt albums; by ActivityMoves and ActivityIds consecutive forum ids and a threaded message id |
| ActivityGeneration.PersonActivityGenerator.GenerateBlockPerson | src/main/java/ldbc/snb/datagen/generator/PersonActivityGenerator.java:154-159 | the logs gain exactly Activity for the person (wall first, then groups, then albums); then one partition change exactly when update streams are on |
| ActivityGeneration.PersonActivityGenerator.GenerateActivityForBlock | src/main/java/ldbc/snb/datagen/generator/PersonActivityGenerator.java:145-170 | streams reseeded with the seed, machineId set to it, one serialiser reset; then BlockDone for the whole block from forum id 0 and message id 0: the logs gain exactly Block (by BlockAt person by person, by BlockIds and BlockMoves consecutive ids and a threaded message id), factors in block order, one partition change per person when update streams are on |
| ActivityGeneration.PersonActivityGenerator.StartBlock | src/main/java/ldbc/snb/datagen/generator/PersonActivityGenerator.java:146-150 | after the resets, the block loop stands before its first person: undrawn streams, both ids 0, logs unchanged |
| ActivityGeneration.PersonActivityGenerator.GenerateBlockLoop | src/main/java/ldbc/snb/datagen/generator/PersonActivityGenerator.java:154-168 | from BlockDone before the first person to BlockDone after the last |
| ActivityGeneration.PersonActivityGenerator.GenerateBlockRound | src/main/java/ldbc/snb/datagen/generator/PersonActivityGenerator.java:154-159 | person i takes BlockDone after i persons to BlockDone after i + 1 |
| Comments.Comment.Default | src/main/java/ldbc/snb/datagen/objects/Comment.java:50-52 | the no-argument constructor leaves postId, replyOf at 0 and gif null |
| Comments.Comment.Copy | src/main/java/ldbc/snb/datagen/objects/Comment.java:54-58 | the copy keeps the message part, postId and replyOf, and has a null gif |
| Comments.Comment.constructor | src/main/java/ldbc/snb/datagen/objects/Comment.java:60-77 | the full constructor stores exactly its arguments |
| Comments.Comment.Initialize | src/main/java/ldbc/snb/datagen/objects/Comment.java:79-94 | `initialize` overwrites the message part, postId, replyOf and gif with its arguments |
| Comments.Comment.SetPostId | src/main/java/ldbc/snb/datagen/objects/Comment.java:100-102 | sets postId; every other field is unchanged |
| Comments.Comment.SetReplyOf | src/main/java/ldbc/snb/datagen/objects/Comment.java:108-110 | sets replyOf; every other field is unchanged |
| Comments.Comment.SetGif | src/main/java/ldbc/snb/datagen/objects/Comment.java:116-118 | sets gif; every other field is unchanged |
| Comments.LastSetterWins | src/main/java/ldbc/snb/datagen/objects/Comment.java:96-118 | after any sequence of setter calls, each getter returns the argument of the last setter call on its own field, or what the comment held before when there is none; the message part is untouched |
| Comments.LastSetIsLast | src/main/java/ldbc/snb/datagen/objects/Comment.java:96-118 | when call k sets a field and no later call does, the field ends with call k's argument |
| Comments.LastSetUntouched | src/main/java/ldbc/snb/datagen/objects/Comment.java:96-118 | a field no call sets keeps its value |
| Comments.CopyKeepsThreadDropsGif | src/main/java/ldbc/snb/datagen/objects/Comment.java:54-58 | a copy of a full comment reports the same postId and replyOf and a null gif, whatever the original's gif |
| Comments.InitializeOverwrites | src/main/java/ldbc/snb/datagen/objects/Comment.java:79-114 | after `initialize`, the getters return its arguments whatever the object held before |
| CsvActivity.Ordinal | src/main/java/ldbc/snb/datagen/serializer/snb/interactive/CSVPersonActivitySerializer.java:25-42 | every file's ordinal indexes one of the 17 writers |
| CsvActivity.FileAt | src/main/java/ldbc/snb/datagen/serializer/snb/interactive/CSVPersonActivitySerializer.java:59-63 | `FileNames.values()[i]` has ordinal i |
| CsvActivity.OrdinalInjective | src/main/java/ldbc/snb/datagen/serializer/snb/interactive/CSVPersonActivitySerializer.java:25-42 | distinct files have distinct ordinals, so each file has a writer of its own |
| CsvActivity.NamesDistinct | src/main/java/ldbc/snb/datagen/serializer/snb/interactive/CSVPersonActivitySerializer.java:25-51 | distinct files have distinct names |
| CsvActivity.HeaderRow | src/main/java/ldbc/snb/datagen/serializer/snb/interactive/CSVPersonActivitySerializer.java:64-165 | the header row holds the file's column names, one field per column |
| CsvActivity.TagWritesRouting | src/main/java/ldbc/snb/datagen/serializer/snb/interactive/CSVPersonActivitySerializer.java:231-236 | the tag loop writes one [id, tag] row per tag, in order, to the tag file and to no other file |
| CsvActivity.PostRowColumns | src/main/java/ldbc/snb/datagen/serializer/snb/interactive/CSVPersonActivitySerializer.java:202-210 | a post row has 8 fields: id, empty imageFile, language name, content and content length |
| CsvActivity.PhotoRowColumns | src/main/java/ldbc/snb/datagen/serializer/snb/interactive/CSVPersonActivitySerializer.java:284-292 | a photo row has 8 fields in the post table: image file in column 2, empty language and content, length "0" |
| CsvActivity.CommentRowColumns | src/main/java/ldbc/snb/datagen/serializer/snb/interactive/CSVPersonActivitySerializer.java:240-247 | a comment row has 7 fields: id, content, the gif as is (null included), content length |
| CsvActivity.ForumRowsMatchHeaders | src/main/java/ldbc/snb/datagen/serializer/snb/interactive/CSVPersonActivitySerializer.java:176-198 | every row `serialize(Forum)` writes has as many fields as its file's header |
| CsvActivity.MembershipAndLikeRowsMatchHeaders | src/main/java/ldbc/snb/datagen/serializer/snb/interactive/CSVPersonActivitySerializer.java:321-340 | membership and like rows have as many fields as their file's header |
| CsvActivity.PostAndPhotoRowsMatchHeaders | src/main/java/ldbc/snb/datagen/serializer/snb/interactive/CSVPersonActivitySerializer.java:200-319 | every row of a post or photo has as many fields as its file's header |
| CsvActivity.CommentRowsMatchHeaders | src/main/java/ldbc/snb/datagen/serializer/snb/interactive/CSVPersonActivitySerializer.java:239-280 | every row of a comment has as many fields as its file's header |
| CsvActivity.ForumRouting | src/main/java/ldbc/snb/datagen/serializer/snb/interactive/CSVPersonActivitySerializer.java:176-198 | one forum row, one moderator row, one tag row per tag |
| CsvActivity.PostRouting | src/main/java/ldbc/snb/datagen/serializer/snb/interactive/CSVPersonActivitySerializer.java:200-237 | one post row, one creator row, one container row, a place row exactly when the country is known, one tag row per tag |
| CsvActivity.PhotoRouting | src/main/java/ldbc/snb/datagen/serializer/snb/interactive/CSVPersonActivitySerializer.java:282-319 | a photo goes to the post table and the post relation files: the same rows as a post |
| CsvActivity.CommentRouting | src/main/java/ldbc/snb/datagen/serializer/snb/interactive/CSVPersonActivitySerializer.java:239-280 | one comment row, one creator row, a place row exactly when the country is known, one tag row per tag |
| CsvActivity.CommentReplyRouting | src/main/java/ldbc/snb/datagen/serializer/snb/interactive/CSVPersonActivitySerializer.java:250-260 | exactly one reply row: to `comment_replyOf_post` with postId when replyOf == postId, else to `comment_replyOf_comment` with replyOf |
| CsvActivity.MembershipRouting | src/main/java/ldbc/snb/datagen/serializer/snb/interactive/CSVPersonActivitySerializer.java:321-327 | one [forum, person, join date] row in `forum_hasMember_person` |
| CsvActivity.LikeRouting | src/main/java/ldbc/snb/datagen/serializer/snb/interactive/CSVPersonActivitySerializer.java:329-340 | a like of a post or photo goes to `person_likes_post`, any other to `person_likes_comment`, never both |
| CsvActivity.AppendedRows | src/main/java/ldbc/snb/datagen/serializer/snb/interactive/CSVPersonActivitySerializer.java:183-184 | after a run of writes, each writer keeps its file name and has gained exactly the rows routed to it, in order |
| CsvActivity.AppendedCommentReply | src/main/java/ldbc/snb/datagen/serializer/snb/interactive/CSVPersonActivitySerializer.java:250-260 | the two reply writers gain the reply row of the branch taken and nothing from the other branch |
| CsvActivity.AppendedLike | src/main/java/ldbc/snb/datagen/serializer/snb/interactive/CSVPersonActivitySerializer.java:333-339 | the two like writers gain the like row of the branch taken and nothing from the other branch |
| CsvActivity.CsvPersonActivitySerializer.constructor | src/main/java/ldbc/snb/datagen/serializer/snb/interactive/CSVPersonActivitySerializer.java:54-55 | no writers yet; the arguments list, null in Java until `initialize` creates it, is unused and modelled as empty |
| CsvActivity.CsvPersonActivitySerializer.Initialize | src/main/java/ldbc/snb/datagen/serializer/snb/interactive/CSVPersonActivitySerializer.java:58-166 | 17 fresh writers, writer i named `<file i>_<reducerId>` and holding exactly its header row; arguments empty |
| CsvActivity.CsvPersonActivitySerializer.WriteEntry | src/main/java/ldbc/snb/datagen/serializer/snb/interactive/CSVPersonActivitySerializer.java:183-184 | the arguments row is appended to the file's writer, then arguments is cleared |
| CsvActivity.CsvPersonActivitySerializer.WriteTags | src/main/java/ldbc/snb/datagen/serializer/snb/interactive/CSVPersonActivitySerializer.java:191-196 | the writers gain exactly TagWrites: one row per tag, in order |
| CsvActivity.CsvPersonActivitySerializer.WriteRow | src/main/java/ldbc/snb/datagen/serializer/snb/interactive/CSVPersonActivitySerializer.java:186-189 | fill arguments, write and clear: one row appended to one file |
| CsvActivity.CsvPersonActivitySerializer.SerializeForum | src/main/java/ldbc/snb/datagen/serializer/snb/interactive/CSVPersonActivitySerializer.java:176-198 | the writers gain exactly ForumWrites; arguments empty on return |
| CsvActivity.CsvPersonActivitySerializer.WritePlace | src/main/java/ldbc/snb/datagen/serializer/snb/interactive/CSVPersonActivitySerializer.java:213-218 | a place row only when the country is known |
| CsvActivity.CsvPersonActivitySerializer.SerializePost | src/main/java/ldbc/snb/datagen/serializer/snb/interactive/CSVPersonActivitySerializer.java:200-237 | the writers gain exactly PostWrites; arguments empty on return |
| CsvActivity.CsvPersonActivitySerializer.SerializePhoto | src/main/java/ldbc/snb/datagen/serializer/snb/interactive/CSVPersonActivitySerializer.java:282-319 | the writers gain exactly PhotoWrites; arguments empty on return |
| CsvActivity.CsvPersonActivitySerializer.SerializeComment | src/main/java/ldbc/snb/datagen/serializer/snb/interactive/CSVPersonActivitySerializer.java:239-280 | the writers gain exactly CommentWrites of the comment's fields; arguments empty on return |
| CsvActivity.CsvPersonActivitySerializer.SerializeMembership | src/main/java/ldbc/snb/datagen/serializer/snb/interactive/CSVPersonActivitySerializer.java:321-327 | the writers gain exactly MembershipWrites; arguments empty on return |
| CsvActivity.CsvPersonActivitySerializer.SerializeLike | src/main/java/ldbc/snb/datagen/serializer/snb/interactive/CSVPersonActivitySerializer.java:329-340 | the writers gain exactly LikeWrites; arguments empty on return |
| CsvActivity.CsvPersonActivitySerializer.Reset | src/main/java/ldbc/snb/datagen/serializer/snb/interactive/CSVPersonActivitySerializer.java:342-344 | `reset` changes nothing |
| TurtleActivity.CommentGifOrContent | src/main/java/ldbc/snb/datagen/serializer/snb/interactive/TurtlePersonActivitySerializer.java:166-175 | empty content: a `hasGif` object and no content or length; otherwise content and length and no `hasGif` |
| TurtleActivity.CommentReplyAndCreator | src/main/java/ldbc/snb/datagen/serializer/snb/interactive/TurtlePersonActivitySerializer.java:177-186 | exactly one `replyOf` object (the post URI when replyOf == postId, else the parent comment URI) and one creator |
| TurtleActivity.CommentPlaceAndTags | src/main/java/ldbc/snb/datagen/serializer/snb/interactive/TurtlePersonActivitySerializer.java:180-203 | a `locatedIn` object exactly when the country is known; one tag resource per tag, in order |
| TurtleActivity.CommentBlockBalanced | src/main/java/ldbc/snb/datagen/serializer/snb/interactive/TurtlePersonActivitySerializer.java:155-175 | the comment's abbreviated block is opened once and closed in either content branch |
| TurtleActivity.CommentBalanced | src/main/java/ldbc/snb/datagen/serializer/snb/interactive/TurtlePersonActivitySerializer.java:150-205 | the whole comment buffer is well formed: no block left open, no complete triple inside a block |
| TurtleActivity.MembershipShape | src/main/java/ldbc/snb/datagen/serializer/snb/interactive/TurtlePersonActivitySerializer.java:247-258 | the forum links to the numbered membership, which names the person and join date in a closed block |
| TurtleActivity.LikeShape | src/main/java/ldbc/snb/datagen/serializer/snb/interactive/TurtlePersonActivitySerializer.java:260-278 | a post or photo like links with `hasPost`, any other with `hasComment`, never both; the block is closed |
| TurtleActivity.NumberedIncreasing | src/main/java/ldbc/snb/datagen/serializer/snb/interactive/TurtlePersonActivitySerializer.java:248-257 | the numbers handed out since a reset are distinct and strictly increasing |
| TurtleActivity.Emitted | src/main/java/ldbc/snb/datagen/serializer/snb/interactive/TurtlePersonActivitySerializer.java:204 | a write appends one chunk to the single writer and keeps its name |
| TurtleActivity.CommentAssembled | src/main/java/ldbc/snb/datagen/serializer/snb/interactive/TurtlePersonActivitySerializer.java:177-203 | the buffer built after the block is the comment's complete-triple list |
| TurtleActivity.TurtlePersonActivitySerializer.constructor | src/main/java/ldbc/snb/datagen/serializer/snb/interactive/TurtlePersonActivitySerializer.java:27-48 | both counters start at 0; no writers yet |
| TurtleActivity.TurtlePersonActivitySerializer.Initialize | src/main/java/ldbc/snb/datagen/serializer/snb/interactive/TurtlePersonActivitySerializer.java:50-61 | one fresh writer named `social_network_activity_<reducerId>`, opened with the namespaces then the static namespaces |
| TurtleActivity.TurtlePersonActivitySerializer.Write | src/main/java/ldbc/snb/datagen/serializer/snb/interactive/TurtlePersonActivitySerializer.java:204 | the buffer is written to the social-network writer |
| TurtleActivity.TurtlePersonActivitySerializer.SerializeComment | src/main/java/ldbc/snb/datagen/serializer/snb/interactive/TurtlePersonActivitySerializer.java:150-205 | exactly CommentStmts is written; the counters are untouched |
| TurtleActivity.TurtlePersonActivitySerializer.CommentBlock | src/main/java/ldbc/snb/datagen/serializer/snb/interactive/TurtlePersonActivitySerializer.java:151-175 | the block: type, id, date, IP, browser, then gif or content and length |
| TurtleActivity.TurtlePersonActivitySerializer.AppendCommentTriples | src/main/java/ldbc/snb/datagen/serializer/snb/interactive/TurtlePersonActivitySerializer.java:177-203 | reply, place, creator, drawn triples and tags are appended in that order |
| TurtleActivity.TurtlePersonActivitySerializer.AppendTags | src/main/java/ldbc/snb/datagen/serializer/snb/interactive/TurtlePersonActivitySerializer.java:200-203 | one `hasTag` triple per tag, in order |
| TurtleActivity.TurtlePersonActivitySerializer.SerializeMembership | src/main/java/ldbc/snb/datagen/serializer/snb/interactive/TurtlePersonActivitySerializer.java:247-258 | membershipId numbers this membership and moves on by exactly one; likeId unchanged; MembershipStmts is written |
| TurtleActivity.TurtlePersonActivitySerializer.SerializeLike | src/main/java/ldbc/snb/datagen/serializer/snb/interactive/TurtlePersonActivitySerializer.java:260-278 | likeId numbers this like and moves on by exactly one; membershipId unchanged; LikeStmts is written |
| TurtleActivity.TurtlePersonActivitySerializer.Reset | src/main/java/ldbc/snb/datagen/serializer/snb/interactive/TurtlePersonActivitySerializer.java:280-284 | both counters are 0 and a new numbering epoch starts |
| Config.Configuration.Get | src/main/java/ldbc/snb/datagen/util/ConfigParser.java:127 | `get` yields the value exactly when the key is set, else null |
| Config.Configuration.Set | src/main/java/ldbc/snb/datagen/util/ConfigParser.java:117 | `set` overwrites one key and keeps the others |
| Config.Configuration.CheckOption | src/main/java/ldbc/snb/datagen/util/ConfigParser.java:139-144 | the option is copied exactly when the properties set it; otherwise the configuration is unchanged |
| Config.DefaultsValues | src/main/java/ldbc/snb/datagen/util/ConfigParser.java:36-39 | the defaults run one thread and use the CSV activity serialiser |
| Config.DefaultsLeaveOpen | src/main/java/ldbc/snb/datagen/util/ConfigParser.java:32-58 | the defaults set neither a scale factor nor a file system |
| Config.ConfigParser.constructor | src/main/java/ldbc/snb/datagen/util/ConfigParser.java:25 | no scale factors before `initialize` |
| Config.ConfigParser.Initialize | src/main/java/ldbc/snb/datagen/util/ConfigParser.java:28-95 | a fresh configuration with Hadoop's defaults overridden by the generator's 27 defaults; the presets become the scale factors |
| Config.ConfigParser.SetAll | src/main/java/ldbc/snb/datagen/util/ConfigParser.java:116-118 | setting every preset entry one at a time overrides the configuration with the whole preset |
| Config.ConfigParser.SetExplicit | src/main/java/ldbc/snb/datagen/util/ConfigParser.java:121-125 | the property loop overrides the configuration with every property except the scale-factor name |
| Config.ConfigParser.ReadConfig | src/main/java/ldbc/snb/datagen/util/ConfigParser.java:108-137 | the configuration ends as Layered says, or the run stops with Layered's error |
| Config.LayeredFails | src/main/java/ldbc/snb/datagen/util/ConfigParser.java:112-135 | the run stops exactly when the named scale factor has no preset, or when no layer sets `fs.defaultFS` |
| Config.StandaloneOneThread | src/main/java/ldbc/snb/datagen/util/ConfigParser.java:127-130 | with `fs.defaultFS` = `file:///`, numThreads ends as "1" whatever the properties say |
| Config.ExplicitWins | src/main/java/ldbc/snb/datagen/util/ConfigParser.java:121-125 | every property but the scale-factor name ends with its property value, over the preset (numThreads in standalone mode excepted) |
| Config.PresetThenPrior | src/main/java/ldbc/snb/datagen/util/ConfigParser.java:112-119 | a key the preset sets and the properties do not takes the preset's value; a key neither sets keeps its prior value or stays unset |
| Config.ScaleFactorKeyNotCopied | src/main/java/ldbc/snb/datagen/util/ConfigParser.java:122 | the scale-factor key is present afterwards exactly when it was before or the preset sets it; the properties never supply it |
| Config.LayeredIdempotent | src/main/java/ldbc/snb/datagen/util/ConfigParser.java:108-137 | reading the same properties twice gives the same configuration as reading them once |

## Left out

- I/O. The HDFS writers, their file system, partitions, compression and `close()` are not modelled. A writer is its file name and the rows or chunks written to it.
- The collaborators the code calls are function-valued parameters:
  - the date formatter and the dictionaries (browsers, languages, places, tags);
  - `IP.toString`, `SN.formId`, the `SN` URIs and the `Turtle` helpers;
  - the forum, post and photo generators, `numberOfMonths`, and the values `nextInt` and `nextDouble` return.
- URI distinctness. Distinct URIs are assumed to be distinct, which the distinct `Node` constructors encode.
- `RandomGeneratorFarm`. The streams are the seed of their last reset and how many draws each aspect has given since. A draw is the collaborator value `nextInt(seed, aspect, k, bound)` or `nextDouble(seed, aspect, k)` for the aspect's k-th draw. The real `java.util.Random` sequence is not modelled. The forum, post and photo generators receive the streams and return where they left them, so their own draws are accounted for without being modelled.
- ActivityGeneration.DrawsInRange: that `nextInt(bound)` lies in [0, bound) and `nextDouble()` in [0, 1) is `java.util.Random`'s promise. It is assumed of the collaborators (the generator's `Valid`), not derived.
- ActivityGeneration.KeepsForumIds: that `createWall`, `createGroup` and `createAlbum` give each forum the id they are passed is assumed. `ForumGenerator` is not part of this model. GroupsIds, AlbumsIds, ActivityIds and BlockIds rest on it.
- The unseeded `Random` of the Turtle comment serialiser. Its three draws (`hasMentioned`, `hasVisibility`, `hasLink`) are given as three booleans saying whether each threshold was passed.
- `FactorTable`, the exporter and the update serialiser are logs of the calls made to them: `factorPersons`, `forums`, `memberships`, `calls`, `serializerResets` and `partitionChanges`.
  - ActivityGeneration.PersonActivityGenerator.GenerateActivityForBlock: the model keeps one log per receiver. It therefore does not state the relative order of forum exports and post-generator calls, which the source interleaves.
  - ActivityGeneration.PersonActivityGenerator.GenerateActivity: `factorTable_.extractFactors(person)` runs before the person's wall (line 53). The factor log and the export logs are separate, so the contract states which persons' factors were extracted, in order, but not that this comes before the person's first export.
- Timing and progress reporting in `generateActivityForBlock`: `currentTimeMillis`, the float average, `context.setStatus` and `progress`.
- ActivityGeneration.ParamsOk: the generator is modelled for `maxNumFriends > 0` and `maxNumMemberGroup > 0`, because line 142 divides by them and Java throws `ArithmeticException` on 0. It also needs `maxNumGroupCreatedPerUser > 0`, because line 91's `nextInt` throws `IllegalArgumentException` for a bound of 0. Those exceptions are not modelled. Negative parameters are excluded by `nat`.
- The `System.exit` paths.
  - The `AssertionError` handler of `generateActivity` is not modelled.
  - The two exits of `readConfig` are the `Failure` results of `Layered`.
  - Config.Configuration: a Hadoop `Configuration` is modelled as a plain map from keys to values. Three Hadoop behaviours are not modelled:
    - `set` trims the key;
    - `set` on a deprecated key also writes its replacement key (Hadoop maps `fs.default.name` to `fs.defaultFS`), and `get` resolves deprecated keys;
    - `get` expands `${var}` references.
    Config.LayeredFails, Config.StandaloneOneThread, Config.ExplicitWins, Config.PresetThenPrior and Config.LayeredIdempotent therefore hold for keys without aliases or surrounding blanks and for values without `${…}`. For example, properties setting `fs.default.name` to an HDFS URI over a `file:///` default change `fs.defaultFS` in Hadoop, so numThreads keeps its property value there. The model keeps `file:///` and forces "1".
  - Config.ConfigParser.ReadConfig: on failure the contract states the error only, not the partly updated configuration the program is about to abandon.
- `readConfig(conf, String paramsFile)` and its missing-file exit. Only the stream overload, with its properties already loaded, is modelled.
- Parsing.
  - Parsing `scale_factors.xml` and loading a `Properties` stream are not modelled; the presets and the properties are given as maps.
  - Hadoop's own default resources are a parameter of `Initialize`.
  - `initialize`'s 27 `conf.set` calls are one map applied with `SetAll`.
- `printConfig`, and the generator's `writeActivityFactors` and `writePersonFactors`: output only.
- The Turtle serialiser's `serialize(Forum)`, `serialize(Post)` and `serialize(Photo)`, together with its date format: they are not part of this model.
- ActivityGeneration.PostCount: Java's 32-bit `int` multiplication `numberPost * memberships().size()` can overflow. The model uses unbounded integers, as it does for the `(int)` casts of the month counts and for forumId and messageId (`long`).
- ActivityGeneration.AlbumCount: the product `numOfmonths * numPhotoAlbums` is not wrapped at 32 bits.
- ActivityGeneration.Collaborators: `monthsSince` and `monthsActive` are typed `nat`, so `numberOfMonths` is assumed non-negative: creation dates precede the end of the simulation. The source casts the `long` to `int` without a sign check (lines 110 and 135). A negative count would make line 140's `nextInt` throw, and line 115's album loop would run zero times even for a positive draw. Neither is modelled. AlbumCountBounds ("0 exactly when the draw is 0") and PostDrawBoundIsPerMonth ("hence positive") hold only under this assumption.
- Content lengths. CsvActivity.PostRowColumns, CsvActivity.CommentRowColumns, TurtleActivity.CommentGifOrContent and TurtleActivity.TurtlePersonActivitySerializer.CommentBlock take a content's length to be its number of characters. Java's `String.length()` counts UTF-16 code units.
  - TurtleActivity.CommentGifOrContent: the comment's `Length` literal is the character count, not `content().length()` (TurtlePersonActivitySerializer.java line 174) in UTF-16 code units.
  - TurtleActivity.TurtlePersonActivitySerializer.CommentBlock: the same character count, for the same reason.
- Counts of albums. `DatagenParams.maxNumPhotoAlbumsPerMonth` is named per month, but PersonActivityGenerator.java lines 110-114 make one NUM_PHOTO_ALBUM draw and multiply it by the month count. The model follows the code.
- Comments.Comment: the superclass `Message` is not part of this model. Its fields are one `MessageFields` value. `countryKnown`/`countryId` is an optional country, left untouched by constructors and `initialize` because their source is not visible.
- Comments.Comment.Default: `Message()`, the superclass constructor, is not part of this model. The message part it leaves is taken to be `BlankFields`: zero ids and dates, empty content and no tags.
