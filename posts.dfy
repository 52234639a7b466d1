/** The write handlers of the post routes: create and delete a post, toggle a like,
    add and delete a comment. The Post collection is a map held by a PostStore; the
    caller id is the one the auth middleware resolved; fresh ids are parameters. */
module PostRoutes {
  import opened Wrappers
  import opened Http
  import opened JsArray

  /** An entry of `post.likes`: its generated id and the liking user. */
  datatype Like = Like(id: string, user: string)

  /** An entry of `post.comments`: its generated id, author and text. */
  datatype Comment = Comment(id: string, user: string, text: string)

  /** A stored post document. */
  datatype Post = Post(user: string, text: string, image: string, likes: seq<Like>, comments: seq<Comment>)

  predicate IsHexDigit(c: char) {
    '0' <= c <= '9' || 'a' <= c <= 'f' || 'A' <= c <= 'F'
  }

  /** A route parameter Post.findById can cast to an ObjectId: 24 hexadecimal digits
      in either case. Any other parameter makes the lookup throw a CastError. */
  predicate IsObjectId(s: string) {
    |s| == 24 && forall i :: 0 <= i < |s| ==> IsHexDigit(s[i])
  }

  function LowerHex(c: char): char {
    if 'A' <= c <= 'F' then (c as int - 'A' as int + 'a' as int) as char else c
  }

  /** The id findById looks up for a castable parameter: the ObjectId the parameter
      casts to, written in the stored form. Upper-case digits become lower-case ones
      and nothing else changes, so a parameter in either case finds the same post. */
  function CastId(s: string): (r: string)
    requires IsObjectId(s)
    ensures IsStoredId(r)
    ensures forall i :: 0 <= i < 24 ==> r[i] == s[i] || ('A' <= s[i] <= 'F' && r[i] as int == s[i] as int + 32)
    ensures IsStoredId(s) ==> r == s
  {
    seq(24, i requires 0 <= i < 24 => LowerHex(s[i]))
  }

  /** An upper-case parameter finds the post stored under the lower-case id. */
  lemma CastIgnoresCase()
    ensures CastId("ABCDEF0123456789ABCDEF01") == "abcdef0123456789abcdef01"
  {
    assert IsObjectId("ABCDEF0123456789ABCDEF01");
  }

  // ---------------------------------------------------------------------------
  // Uploads

  /** multer's `filename` callback: the prefix generated once when the module loads,
      followed by the upload's original name. */
  function StoredName(prefix: string, originalname: string): (r: string)
    ensures |r| == |prefix| + |originalname|
    ensures r[..|prefix|] == prefix && r[|prefix|..] == originalname
  {
    prefix + originalname
  }

  /** Within one process two uploads get the same stored name exactly when their
      original names are equal, so a second upload of a name overwrites the first. */
  lemma StoredNamesCollide(prefix: string, a: string, b: string)
    ensures StoredName(prefix, a) == StoredName(prefix, b) <==> a == b
  {
    if StoredName(prefix, a) == StoredName(prefix, b) {
      assert a == StoredName(prefix, a)[|prefix|..];
      assert b == StoredName(prefix, b)[|prefix|..];
    }
  }

  // ---------------------------------------------------------------------------
  // The like toggle
  //
  //   post.likes.map(like => {
  //     if (like.user == caller) post.likes.splice(like._id, 1);
  //     else post.likes.unshift({user: caller});
  //   })
  //
  // map fixes n = likes.length first, then for k < n visits the CURRENT element at k
  // when the array is still longer than k. The k-th visit's unshift gets id mint(k);
  // the unshift for a post without likes gets mint(0).

  /** The likes after visits k..n-1, starting from `cur`. Each visit adds at most one
      like, and every like it adds is the caller's. */
  function ToggleScanFrom(cur: seq<Like>, k: nat, n: nat, caller: string, mint: nat -> string): (r: seq<Like>)
    ensures |r| <= |cur| + (if k <= n then n - k else 0)
    ensures forall x :: x in r ==> x in cur || x.user == caller
    decreases n - k
  {
    if k >= n then cur
    else if k >= |cur| then ToggleScanFrom(cur, k + 1, n, caller, mint)
    else if cur[k].user == caller then ToggleScanFrom(SpliceOne(cur, NumericIndex(cur[k].id)), k + 1, n, caller, mint)
    else ToggleScanFrom([Like(mint(k), caller)] + cur, k + 1, n, caller, mint)
  }

  /** The likes after PUT /api/posts/like/:id on a post whose likes were `likes`. */
  function ToggledLikes(likes: seq<Like>, caller: string, mint: nat -> string): (r: seq<Like>)
    ensures |r| <= if likes == [] then 1 else 2 * |likes|
    ensures forall x :: x in r ==> x in likes || x.user == caller
  {
    if |likes| > 0 then ToggleScanFrom(likes, 0, |likes|, caller, mint) else [Like(mint(0), caller)]
  }

  /** The caller's likes unshifted by visits lo..hi-1, the latest first. */
  function Minted(caller: string, mint: nat -> string, lo: nat, hi: nat): (r: seq<Like>)
    ensures |r| == if hi <= lo then 0 else hi - lo
    ensures forall i :: 0 <= i < |r| ==> r[i].user == caller
    decreases hi
  {
    if hi <= lo then [] else [Like(mint(hi - 1), caller)] + Minted(caller, mint, lo, hi - 1)
  }

  /** The like loop of the handler (lines that branch on likes.length), on the array it mutates. */
  method ToggleLikes(likes: seq<Like>, caller: string, mint: nat -> string) returns (r: seq<Like>)
    ensures r == ToggledLikes(likes, caller, mint)
    ensures |likes| > 0 && likes[0].user != caller ==> r == Minted(caller, mint, 0, |likes|) + likes
  {
    r := likes;
    if |r| > 0 {
      var n := |r|;
      var k := 0;
      while k < n
        invariant k <= n
        invariant ToggleScanFrom(r, k, n, caller, mint) == ToggleScanFrom(likes, 0, n, caller, mint)
      {
        if k < |r| {
          var like := r[k];
          if like.user == caller {
            var removeIndex := like.id;
            r := SpliceOne(r, NumericIndex(removeIndex));
          } else {
            r := [Like(mint(k), caller)] + r;
          }
        }
        k := k + 1;
      }
      if likes[0].user != caller {
        ToggleOthersFirst(likes, caller, mint);
      }
    } else {
      r := [Like(mint(0), caller)];
    }
  }

  lemma {:induction false} MintedStep(caller: string, mint: nat -> string, lo: nat, hi: nat)
    requires lo < hi
    ensures Minted(caller, mint, lo + 1, hi) + [Like(mint(lo), caller)] == Minted(caller, mint, lo, hi)
    decreases hi
  {
    if lo + 1 < hi {
      MintedStep(caller, mint, lo, hi - 1);
    }
  }

  /** Once a visit sees an entry that is not the caller's, every later visit sees the same
      entry again (the unshift moves it up by one, as the index does), so every remaining
      visit prepends a like by the caller. */
  lemma {:induction false} UnshiftRun(cur: seq<Like>, k: nat, n: nat, caller: string, mint: nat -> string)
    requires k <= n && k < |cur| && cur[k].user != caller
    ensures ToggleScanFrom(cur, k, n, caller, mint) == Minted(caller, mint, k, n) + cur
    decreases n - k
  {
    if k < n {
      var next := [Like(mint(k), caller)] + cur;
      assert next[k + 1] == cur[k];
      UnshiftRun(next, k + 1, n, caller, mint);
      MintedStep(caller, mint, k, n);
      assert Minted(caller, mint, k + 1, n) + next == Minted(caller, mint, k + 1, n) + [Like(mint(k), caller)] + cur;
    }
  }

  /** When the first like is someone else's, the toggle prepends n likes by the caller,
      one per visit, and leaves the old likes after them unchanged. */
  lemma ToggleOthersFirst(likes: seq<Like>, caller: string, mint: nat -> string)
    requires |likes| > 0 && likes[0].user != caller
    ensures ToggledLikes(likes, caller, mint) == Minted(caller, mint, 0, |likes|) + likes
    ensures |ToggledLikes(likes, caller, mint)| == 2 * |likes|
  {
    UnshiftRun(likes, 0, |likes|, caller, mint);
  }

  /** Liking a post without likes gives exactly one like, by the caller. */
  lemma ToggleNoLikes(caller: string, mint: nat -> string)
    ensures |ToggledLikes([], caller, mint)| == 1 && ToggledLikes([], caller, mint)[0].user == caller
  {
  }

  /** A post whose only like is the caller's loses it when the like's id is NaN as a
      number, and keeps it when the id is a decimal numeral (the splice lands past the end). */
  lemma ToggleOwnSoleLike(id: string, caller: string, mint: nat -> string)
    ensures NumericIndex(id) == 0 ==> ToggledLikes([Like(id, caller)], caller, mint) == []
    ensures NumericIndex(id) > 0 ==> ToggledLikes([Like(id, caller)], caller, mint) == [Like(id, caller)]
  {
    assert ToggledLikes([Like(id, caller)], caller, mint)
        == ToggleScanFrom(SpliceOne([Like(id, caller)], NumericIndex(id)), 1, 1, caller, mint);
  }

  /** Toggling twice restores a post liked by one other user, when the like the first
      request adds has an id that is NaN as a number. Each request mints its own ids. */
  lemma DoubleToggleOneOther(other: Like, caller: string, mint1: nat -> string, mint2: nat -> string)
    requires other.user != caller && NumericIndex(mint1(0)) == 0
    ensures ToggledLikes(ToggledLikes([other], caller, mint1), caller, mint2) == [other]
  {
    ToggleOthersFirst([other], caller, mint1);
    var once := [Like(mint1(0), caller), other];
    assert ToggledLikes([other], caller, mint1) == once;
    assert ToggleScanFrom(once, 0, 2, caller, mint2) == ToggleScanFrom([other], 1, 2, caller, mint2);
  }

  /** Toggling twice does not restore a post liked by two other users: the second toggle
      removes one like by the caller and then adds three, leaving four likes by the caller
      (so a user can hold several likes of one post). Each request mints its own ids. */
  lemma DoubleToggleTwoOthers(o1: Like, o2: Like, caller: string, mint1: nat -> string, mint2: nat -> string)
    requires o1.user != caller && o2.user != caller
    requires NumericIndex(mint1(1)) == 0
    ensures |ToggledLikes(ToggledLikes([o1, o2], caller, mint1), caller, mint2)| == 6
    ensures ToggledLikes(ToggledLikes([o1, o2], caller, mint1), caller, mint2)[..4] ==
      Minted(caller, mint2, 1, 4) + [Like(mint1(0), caller)]
  {
    ToggleOthersFirst([o1, o2], caller, mint1);
    var once := Minted(caller, mint1, 0, 2) + [o1, o2];
    assert once == [Like(mint1(1), caller), Like(mint1(0), caller), o1, o2];
    var afterFirst := [Like(mint1(0), caller), o1, o2];
    SecondToggle(once, afterFirst, caller, mint2);
    PrefixThroughHead(Minted(caller, mint2, 1, 4), afterFirst);
  }

  /** The second toggle of the two-other-users case: the first visit splices the caller's
      newest like away at position 0, and each of the three later visits prepends one. */
  lemma SecondToggle(once: seq<Like>, afterFirst: seq<Like>, caller: string, mint: nat -> string)
    requires |once| == 4 && once[0].user == caller && NumericIndex(once[0].id) == 0
    requires afterFirst == once[1..] && afterFirst[1].user != caller
    ensures ToggledLikes(once, caller, mint) == Minted(caller, mint, 1, 4) + afterFirst
  {
    assert SpliceOne(once, 0) == afterFirst;
    assert ToggleScanFrom(once, 0, 4, caller, mint) == ToggleScanFrom(afterFirst, 1, 4, caller, mint);
    UnshiftRun(afterFirst, 1, 4, caller, mint);
  }

  lemma PrefixThroughHead<T>(a: seq<T>, b: seq<T>)
    requires b != []
    ensures |a + b| == |a| + |b|
    ensures (a + b)[..|a| + 1] == a + [b[0]]
  {
  }

  /** Every like's id is the string form of an ObjectId. */
  predicate LikesStored(likes: seq<Like>) {
    forall i :: 0 <= i < |likes| ==> IsStoredId(likes[i].id)
  }

  /** Every id a request mints is the string form of a fresh ObjectId. */
  ghost predicate MintsStored(mint: nat -> string) {
    forall k :: IsStoredId(mint(k))
  }

  /** The toggle keeps every like id in its stored form: it splices likes away and
      prepends likes with minted ids. */
  lemma {:induction false} ToggleKeepsStored(cur: seq<Like>, k: nat, n: nat, caller: string, mint: nat -> string)
    requires LikesStored(cur) && MintsStored(mint)
    ensures LikesStored(ToggleScanFrom(cur, k, n, caller, mint))
    decreases n - k
  {
    if k < n {
      if k >= |cur| {
        ToggleKeepsStored(cur, k + 1, n, caller, mint);
      } else if cur[k].user == caller {
        var next := SpliceOne(cur, NumericIndex(cur[k].id));
        SpliceOneEffect(cur, NumericIndex(cur[k].id));
        assert LikesStored(next);
        ToggleKeepsStored(next, k + 1, n, caller, mint);
      } else {
        var next := [Like(mint(k), caller)] + cur;
        assert LikesStored(next);
        ToggleKeepsStored(next, k + 1, n, caller, mint);
      }
    }
  }

  /** The likes after a toggle keep their ids in stored form. */
  lemma ToggledLikesStored(likes: seq<Like>, caller: string, mint: nat -> string)
    requires LikesStored(likes) && MintsStored(mint)
    ensures LikesStored(ToggledLikes(likes, caller, mint))
  {
    if |likes| > 0 {
      ToggleKeepsStored(likes, 0, |likes|, caller, mint);
    }
  }

  // ---------------------------------------------------------------------------
  // Comments

  /** Every comment's id is the string form of an ObjectId. */
  predicate CommentsStored(cs: seq<Comment>) {
    forall i :: 0 <= i < |cs| ==> IsStoredId(cs[i].id)
  }

  /** Removing a comment keeps every comment id in its stored form. */
  lemma SpliceCommentsStored(cs: seq<Comment>, p: nat)
    requires CommentsStored(cs)
    ensures CommentsStored(SpliceOne(cs, p))
  {
    SpliceOneEffect(cs, p);
  }

  /** post.comments.find(c => c.id == id): the position of the first comment with the id,
      or |cs| when there is none. */
  function FindComment(cs: seq<Comment>, id: string): (i: nat)
    ensures i <= |cs|
    ensures i < |cs| ==> cs[i].id == id
    ensures forall j :: 0 <= j < i ==> cs[j].id != id
  {
    if cs == [] then 0 else if cs[0].id == id then 0 else 1 + FindComment(cs[1..], id)
  }

  /** A successful comment delete removes the comment at the position the comment id
      coerces to; for a NaN id that is the first comment, which need not be the one that
      matched: here the caller's own comment stays and another user's comment goes. */
  lemma DeleteCommentRemovesFront(a: Comment, b: Comment, caller: string)
    requires a.id != b.id && a.user != caller && b.user == caller && NumericIndex(b.id) == 0
    ensures FindComment([a, b], b.id) == 1
    ensures SpliceOne([a, b], NumericIndex(b.id)) == [b]
  {
    assert FindComment([a, b][1..], b.id) == 0;
  }

  // ---------------------------------------------------------------------------
  // The Post collection

  predicate PostWellFormed(p: Post) {
    LikesStored(p.likes) && CommentsStored(p.comments)
  }

  class PostStore {
    /** `filename`: the uuid generated once when the routes module loads. */
    const prefix: string
    /** The Post collection, by post id. */
    var posts: map<string, Post>

    /** Every post is stored under the string form of its ObjectId, and so are the ids
        of its likes and comments. */
    ghost predicate Valid()
      reads this
    {
      forall id :: id in posts ==> IsStoredId(id) && PostWellFormed(posts[id])
    }

    constructor (uuid: string)
      ensures Valid() && prefix == uuid && posts == map[]
    {
      prefix := uuid;
      posts := map[];
    }

    /** POST /api/posts: validate the text, then save a post with the caller as its user,
        the text, and the stored name of the upload as its image. Without an upload,
        reading `file.filename` throws and nothing is saved. */
    method CreatePost(caller: string, text: string, upload: Option<string>, postId: string) returns (reply: Reply)
      requires Valid() && IsStoredId(postId) && postId !in posts
      modifies this
      ensures Valid()
      ensures text == "" ==>
        reply == Invalid([FieldError("text", "Text/Content of post is required")]) && posts == old(posts)
      ensures text != "" && upload.None? ==> reply == ServerError && posts == old(posts)
      ensures text != "" && upload.Some? ==> (reply == Ok("") &&
        posts == old(posts)[postId := Post(caller, text, StoredName(prefix, upload.value), [], [])])
    {
      var errors := Failures([Check("text", "Text/Content of post is required", text)]);
      if errors != [] {
        return Invalid(errors);
      }
      if upload.None? {
        return ServerError;
      }
      var post := Post(caller, text, StoredName(prefix, upload.value), [], []);
      posts := posts[postId := post];
      reply := Ok("");
    }

    /** DELETE /api/posts/:id: only the post's own user may remove it. */
    method DeletePost(caller: string, postId: string) returns (reply: Reply)
      requires Valid()
      modifies this
      ensures Valid()
      ensures !IsObjectId(postId) ==> reply == Fail(404, "Post not found") && posts == old(posts)
      ensures IsObjectId(postId) && CastId(postId) !in old(posts) ==>
        reply == Fail(404, "Post Not Found") && posts == old(posts)
      ensures IsObjectId(postId) && CastId(postId) in old(posts) && old(posts)[CastId(postId)].user != caller ==>
        reply == Fail(401, "You are not Authorized") && posts == old(posts)
      ensures IsObjectId(postId) && CastId(postId) in old(posts) && old(posts)[CastId(postId)].user == caller ==>
        reply == Ok("Post deleted successfully") && posts == old(posts) - {CastId(postId)}
    {
      if !IsObjectId(postId) {
        return Fail(404, "Post not found");
      }
      var key := CastId(postId);
      if key !in posts {
        return Fail(404, "Post Not Found");
      }
      if posts[key].user != caller {
        return Fail(401, "You are not Authorized");
      }
      posts := posts - {key};
      reply := Ok("Post deleted successfully");
    }

    /** PUT /api/posts/like/:id: run the like loop on the post's likes. */
    method LikePost(caller: string, postId: string, mint: nat -> string) returns (reply: Reply)
      requires Valid() && MintsStored(mint)
      modifies this
      ensures Valid()
      ensures !IsObjectId(postId) || CastId(postId) !in old(posts) ==>
        reply == Fail(404, "Post not found") && posts == old(posts)
      ensures IsObjectId(postId) && CastId(postId) in old(posts) ==> (var key := CastId(postId);
        reply == Ok("") &&
        posts == old(posts)[key := old(posts)[key].(likes := ToggledLikes(old(posts)[key].likes, caller, mint))])
    {
      if !IsObjectId(postId) || CastId(postId) !in posts {
        return Fail(404, "Post not found");
      }
      var key := CastId(postId);
      var post := posts[key];
      var likes := ToggleLikes(post.likes, caller, mint);
      ToggledLikesStored(post.likes, caller, mint);
      posts := posts[key := post.(likes := likes)];
      reply := Ok("");
    }

    /** POST /api/posts/comment/:id: validate the text, then `unshift` the comment. A
        malformed or unknown post id throws inside the `try`, giving a server error. */
    method AddComment(caller: string, postId: string, text: string, commentId: string) returns (reply: Reply)
      requires Valid() && IsStoredId(commentId)
      modifies this
      ensures Valid()
      ensures text == "" ==>
        reply == Invalid([FieldError("text", "Text/Content of comment is required")]) && posts == old(posts)
      ensures text != "" && (!IsObjectId(postId) || CastId(postId) !in old(posts)) ==>
        reply == ServerError && posts == old(posts)
      ensures text != "" && IsObjectId(postId) && CastId(postId) in old(posts) ==> (var key := CastId(postId);
        reply == Ok("") &&
        posts == old(posts)[key := old(posts)[key].(comments := [Comment(commentId, caller, text)] + old(posts)[key].comments)])
    {
      var errors := Failures([Check("text", "Text/Content of comment is required", text)]);
      if errors != [] {
        return Invalid(errors);
      }
      if !IsObjectId(postId) || CastId(postId) !in posts {
        return ServerError;
      }
      var key := CastId(postId);
      var post := posts[key];
      post := post.(comments := [Comment(commentId, caller, text)] + post.comments);
      posts := posts[key := post];
      reply := Ok("");
    }

    /** DELETE /api/posts/comment/:id/:comment_id: three rejections that change nothing,
        then a splice whose start is the matched comment's id. */
    method DeleteComment(caller: string, postId: string, commentId: string) returns (reply: Reply)
      requires Valid()
      modifies this
      ensures Valid()
      ensures !IsObjectId(postId) ==> reply == Fail(404, "Post not found") && posts == old(posts)
      ensures IsObjectId(postId) && CastId(postId) !in old(posts) ==>
        reply == Fail(404, "Post Not Found") && posts == old(posts)
      ensures IsObjectId(postId) && CastId(postId) in old(posts) ==> (var key := CastId(postId);
        var cs := old(posts)[key].comments; var i := FindComment(cs, commentId);
        (i == |cs| ==> reply == Fail(404, "Comment Not Found") && posts == old(posts)) &&
        (i < |cs| && cs[i].user != caller ==> reply == Fail(404, "User Not Authorized") && posts == old(posts)) &&
        (i < |cs| && cs[i].user == caller ==>
          reply == Ok("") && posts == old(posts)[key := old(posts)[key].(comments := SpliceOne(cs, NumericIndex(commentId)))]))
    {
      if !IsObjectId(postId) {
        return Fail(404, "Post not found");
      }
      var key := CastId(postId);
      if key !in posts {
        return Fail(404, "Post Not Found");
      }
      var post := posts[key];
      var i := FindComment(post.comments, commentId);
      if i == |post.comments| {
        return Fail(404, "Comment Not Found");
      }
      var comment := post.comments[i];
      if comment.user != caller {
        return Fail(404, "User Not Authorized");
      }
      var removeIndex := comment.id;
      SpliceCommentsStored(post.comments, NumericIndex(removeIndex));
      post := post.(comments := SpliceOne(post.comments, NumericIndex(removeIndex)));
      posts := posts[key := post];
      reply := Ok("");
    }
  }
}
