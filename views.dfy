/**
 * The API views as handlers over the database: creating, updating and
 * deleting posts, commenting, and toggling a like. Each handler is one
 * sequential step; the requester is `None` for an anonymous request.
 */
module Views {
  import opened Outcomes
  import opened Models
  import opened Serializers
  import opened Text

  const HTTP_200_OK: nat := 200
  const HTTP_201_CREATED: nat := 201
  const HTTP_204_NO_CONTENT: nat := 204
  const HTTP_400_BAD_REQUEST: nat := 400
  const HTTP_401_UNAUTHORIZED: nat := 401
  const HTTP_403_FORBIDDEN: nat := 403
  const HTTP_404_NOT_FOUND: nat := 404
  const HTTP_500_INTERNAL_SERVER_ERROR: nat := 500

  const NotOwner := "You are not the owner of this post"

  datatype Body =
    | NoContent
    | Status(status: string)            // {'status': ...}
    | OwnerError(error: string)         // {'error': ...}
    | Invalid(errors: seq<FieldError>)     // {field: [messages], ...}
    | PostCreated(post: PostId)
    | PostUpdated(post: PostId)
    | CommentCreated(comment: CommentId)
    | NotAuthenticated
    | NotFound
    | ServerError                       // an exception the view does not catch

  datatype Response = Response(code: nat, body: Body)

  const Unauthorized := Response(HTTP_401_UNAUTHORIZED, NotAuthenticated)
  const Missing := Response(HTTP_404_NOT_FOUND, NotFound)
  const Forbidden := Response(HTTP_403_FORBIDDEN, OwnerError(NotOwner))

  /** What `LikeToggleView.create` answers for a pair that was, or was not, liked before. */
  function ToggleResponse(wasLiked: bool): (r: Response)
    ensures r.code == (if wasLiked then HTTP_200_OK else HTTP_201_CREATED)
    ensures r.body == Status(if wasLiked then "unliked" else "liked")
  {
    if wasLiked then Response(HTTP_200_OK, Status("unliked")) else Response(HTTP_201_CREATED, Status("liked"))
  }

  /**
   * `LikeToggleView.create`: an anonymous requester is refused (401), a
   * missing post is 404, otherwise the (post, user) pair is removed when
   * present ("unliked", 200) and inserted when absent ("liked", 201). Nothing
   * but the like table changes.
   */
  method ToggleLike(db: Database, requester: Option<UserId>, post: PostId) returns (resp: Response)
    requires db.Valid()
    modifies db
    ensures db.Valid()
    ensures db.posts == old(db.posts) && db.images == old(db.images) && db.comments == old(db.comments)
    ensures db.files == old(db.files)
    ensures db.nextPost == old(db.nextPost) && db.nextImage == old(db.nextImage) && db.nextComment == old(db.nextComment)
    ensures requester.None? ==> resp == Unauthorized && db.likes == old(db.likes)
    ensures requester.Some? && post !in old(db.posts) ==> resp == Missing && db.likes == old(db.likes)
    ensures requester.Some? && post in old(db.posts) ==>
      db.likes == Toggle(old(db.likes), (post, requester.value)) &&
      resp == ToggleResponse((post, requester.value) in old(db.likes))
  {
    if requester.None? {
      return Unauthorized;
    }
    if post !in db.posts {
      return Missing;
    }
    var pair := (post, requester.value);
    var created := pair !in db.likes;   // get_or_create
    if created {
      db.likes := db.likes + {pair};
    }
    if !created {
      db.likes := db.likes - {pair};
      return ToggleResponse(true);
    }
    return ToggleResponse(false);
  }

  /** Two toggles in a row by the same user on the same post leave the like table as it was. */
  method DoubleToggle(db: Database, user: UserId, post: PostId) returns (first: Response, second: Response)
    requires db.Valid()
    modifies db
    ensures db.Valid()
    ensures db.likes == old(db.likes)
    ensures db.posts == old(db.posts) && db.images == old(db.images) && db.comments == old(db.comments)
    ensures db.files == old(db.files)
    ensures db.nextPost == old(db.nextPost) && db.nextImage == old(db.nextImage) && db.nextComment == old(db.nextComment)
    ensures post in old(db.posts) ==> first.code != second.code
  {
    first := ToggleLike(db, Some(user), post);
    second := ToggleLike(db, Some(user), post);
    Models.ToggleTwice(old(db.likes), (post, user));
  }

  /** The value of the serializer's `image` field: the last file sent under that name, if any. */
  function LastUpload(uploads: seq<Upload>): (r: Option<Upload>)
    ensures r.None? <==> uploads == []
    ensures r.Some? ==> r.value == uploads[|uploads| - 1]
  {
    if uploads == [] then None else Some(uploads[|uploads| - 1])
  }

  /** The stored files of the uploads, in order. */
  function FilesOf(uploads: seq<Upload>): (r: seq<FieldFile>)
    ensures |r| == |uploads|
    ensures forall i :: 0 <= i < |uploads| ==> r[i] == uploads[i].file
  {
    seq(|uploads|, i requires 0 <= i < |uploads| => uploads[i].file)
  }

  /**
   * `PostListCreateView.create` as written, for the files sent under
   * `image`. Anonymous is 401. Invalid fields are 400: the stripped text is
   * checked, and so is the size of the last file. Otherwise `serializer.save`
   * hands the validated `image` to `Post`, which has no such field. So any
   * request that sends a file fails (500) before a post exists, and a post
   * is created only without files. Either way no image row is ever made.
   */
  method CreatePost(db: Database, requester: Option<UserId>, text: Option<string>, uploads: seq<Upload>) returns (resp: Response)
    requires db.Valid()
    modifies db
    ensures db.Valid()
    ensures db.comments == old(db.comments) && db.likes == old(db.likes) && db.nextComment == old(db.nextComment)
    ensures db.images == old(db.images) && db.files == old(db.files) && db.nextImage == old(db.nextImage)
    ensures resp.code != HTTP_201_CREATED ==> db.posts == old(db.posts) && db.nextPost == old(db.nextPost)
    ensures requester.None? ==> resp == Unauthorized
    ensures requester.Some? && ValidatePost(text, LastUpload(uploads), false).Err? ==>
      resp == Response(HTTP_400_BAD_REQUEST, Invalid(ValidatePost(text, LastUpload(uploads), false).error))
    ensures requester.Some? && ValidatePost(text, LastUpload(uploads), false).Ok? && uploads != [] ==>
      resp == Response(HTTP_500_INTERNAL_SERVER_ERROR, ServerError)
    ensures requester.Some? && ValidatePost(text, LastUpload(uploads), false).Ok? && uploads == [] ==>
      var id := old(db.nextPost);
      && resp == Response(HTTP_201_CREATED, PostCreated(id))
      && id !in old(db.posts)
      && db.posts == old(db.posts)[id := Post(requester.value, Strip(Python, text.value))]
  {
    if requester.None? {
      return Unauthorized;
    }
    var checked := ValidatePost(text, LastUpload(uploads), false);
    if checked.Err? {
      return Response(HTTP_400_BAD_REQUEST, Invalid(checked.error));
    }
    if checked.value.image.Some? {
      // Post(**validated_data) raises TypeError on the `image` keyword
      return Response(HTTP_500_INTERNAL_SERVER_ERROR, ServerError);
    }
    var id := PerformCreate(db, requester.value, checked.value.text.value, FilesOf(uploads));
    return Response(HTTP_201_CREATED, PostCreated(id));
  }

  /**
   * Every request that sends one acceptable file under `image` with an
   * acceptable text passes validation and reaches the failing save, so no
   * such request ever makes a post.
   */
  lemma SaveReachedWithImage(text: string, u: Upload)
    requires PostTextField(text).Ok? && u.size <= MaxImageSize
    ensures ValidatePost(Some(text), LastUpload([u]), false).Ok?
    ensures ValidatePost(Some(text), LastUpload([u]), false).value.image == Some(u)
  {
  }

  /** A concrete such request: the text "hello world" with one file of 1 KB. */
  lemma SaveReachedExample()
    ensures PostTextField("hello world") == Ok("hello world")
    ensures ValidatePost(Some("hello world"), LastUpload([Upload(FieldFile("posts/a.png", "/media/posts/a.png"), 1024)]), false).Ok?
  {
    var s := "hello world";
    assert !IsPythonSpace(s[0]) && !IsPythonSpace(s[|s| - 1]);
    assert SpanStart(Python, s) == 0 && SpanEnd(Python, s) == |s|;
    assert s[0..|s|] == s;
    assert '\0' !in s;
  }

  /**
   * `PostListCreateView.create` as evidently intended: the same checks, but
   * the post is saved without the `image` value. Then `perform_create` makes
   * one image row per file sent under `image`.
   */
  method CreatePostCorrected(db: Database, requester: Option<UserId>, text: Option<string>, uploads: seq<Upload>) returns (resp: Response)
    requires db.Valid()
    modifies db
    ensures db.Valid()
    ensures db.comments == old(db.comments) && db.likes == old(db.likes) && db.nextComment == old(db.nextComment)
    ensures resp.code != HTTP_201_CREATED ==>
      db.posts == old(db.posts) && db.images == old(db.images) && db.files == old(db.files) &&
      db.nextPost == old(db.nextPost) && db.nextImage == old(db.nextImage)
    ensures requester.None? ==> resp == Unauthorized
    ensures requester.Some? && ValidatePost(text, LastUpload(uploads), false).Err? ==>
      resp == Response(HTTP_400_BAD_REQUEST, Invalid(ValidatePost(text, LastUpload(uploads), false).error))
    ensures requester.Some? && ValidatePost(text, LastUpload(uploads), false).Ok? ==>
      var id := old(db.nextPost);
      && resp == Response(HTTP_201_CREATED, PostCreated(id))
      && id !in old(db.posts)
      && db.posts == old(db.posts)[id := Post(requester.value, Strip(Python, text.value))]
      && db.images == old(db.images) + NewImages(id, FilesOf(uploads), old(db.nextImage))
      && db.files == old(db.files) + Names(FilesOf(uploads))
  {
    if requester.None? {
      return Unauthorized;
    }
    var checked := ValidatePost(text, LastUpload(uploads), false);
    if checked.Err? {
      return Response(HTTP_400_BAD_REQUEST, Invalid(checked.error));
    }
    var id := PerformCreate(db, requester.value, checked.value.text.value, FilesOf(uploads));
    return Response(HTTP_201_CREATED, PostCreated(id));
  }

  /**
   * `PostListCreateView.perform_create`: the post is saved with the requester
   * as author, then one `PostImage` row is created per uploaded file, in
   * upload order, and the file is put in media storage.
   */
  method PerformCreate(db: Database, author: UserId, text: string, uploads: seq<FieldFile>) returns (id: PostId)
    requires db.Valid()
    modifies db
    ensures db.Valid()
    ensures id == old(db.nextPost) && id !in old(db.posts)
    ensures db.posts == old(db.posts)[id := Post(author, text)]
    ensures db.images == old(db.images) + NewImages(id, uploads, old(db.nextImage))
    ensures db.nextImage == old(db.nextImage) + |uploads|
    ensures db.files == old(db.files) + Names(uploads)
    ensures db.comments == old(db.comments) && db.likes == old(db.likes) && db.nextComment == old(db.nextComment)
  {
    id := db.AddPost(author, text);
    AttachImages(db, id, uploads);
  }

  /** The loop of `perform_create`: one `PostImage` row per upload, in upload order. */
  method AttachImages(db: Database, post: PostId, uploads: seq<FieldFile>)
    requires db.Valid() && post in db.posts
    modifies db
    ensures db.Valid()
    ensures db.images == old(db.images) + NewImages(post, uploads, old(db.nextImage))
    ensures db.nextImage == old(db.nextImage) + |uploads|
    ensures db.files == old(db.files) + Names(uploads)
    ensures db.posts == old(db.posts) && db.comments == old(db.comments) && db.likes == old(db.likes)
    ensures db.nextPost == old(db.nextPost) && db.nextComment == old(db.nextComment)
  {
    ghost var images0, files0, first := db.images, db.files, db.nextImage;
    var k := 0;
    while k < |uploads|
      invariant 0 <= k <= |uploads|
      invariant db.Valid()
      invariant db.nextImage == first + k
      invariant db.images == images0 + NewImages(post, uploads[..k], first)
      invariant db.files == files0 + Names(uploads[..k])
      invariant db.posts == old(db.posts) && db.comments == old(db.comments) && db.likes == old(db.likes)
      invariant db.nextPost == old(db.nextPost) && db.nextComment == old(db.nextComment)
    {
      ghost var before, named := db.images, db.files;
      db.AddImage(post, uploads[k]);
      assert db.images == before[first + k := PostImage(post, Some(uploads[k]))];
      assert db.files == named + {uploads[k].name};
      AttachStep(images0, db.images, post, uploads, k, first);
      NameStep(files0, db.files, uploads, k);
      k := k + 1;
    }
    assert uploads[..k] == uploads;
  }

  /** The image rows after one more upload are those the first `k + 1` uploads describe. */
  lemma AttachStep(images0: map<ImageId, PostImage>, images: map<ImageId, PostImage>,
                   post: PostId, uploads: seq<FieldFile>, k: nat, first: ImageId)
    requires k < |uploads|
    requires images == (images0 + NewImages(post, uploads[..k], first))[first + k := PostImage(post, Some(uploads[k]))]
    ensures images == images0 + NewImages(post, uploads[..k + 1], first)
  {
    assert uploads[..k + 1][..k] == uploads[..k];
    UnionUpdate(images0, NewImages(post, uploads[..k], first), first + k, PostImage(post, Some(uploads[k])));
  }

  /** The stored names after one more upload are those of the first `k + 1` uploads. */
  lemma NameStep(files0: set<string>, files: set<string>, uploads: seq<FieldFile>, k: nat)
    requires k < |uploads|
    requires files == files0 + Names(uploads[..k]) + {uploads[k].name}
    ensures files == files0 + Names(uploads[..k + 1])
  {
    assert uploads[..k + 1][..k] == uploads[..k];
  }

  /** Updating the right operand of a union is updating the union. */
  lemma UnionUpdate<K, V>(a: map<K, V>, b: map<K, V>, k: K, v: V)
    ensures a + b[k := v] == (a + b)[k := v]
  {
  }

  /** The image rows made for `uploads`, keyed consecutively from `first`, each attached to `post`. */
  function NewImages(post: PostId, uploads: seq<FieldFile>, first: ImageId): (r: map<ImageId, PostImage>)
    ensures forall i :: i in r <==> first <= i < first + |uploads|
    ensures forall i :: i in r ==> r[i] == PostImage(post, Some(uploads[i - first]))
  {
    if uploads == [] then map[]
    else
      var n := |uploads| - 1;
      NewImages(post, uploads[..n], first)[first + n := PostImage(post, Some(uploads[n]))]
  }

  /** The names of the uploaded files. */
  function Names(uploads: seq<FieldFile>): (r: set<string>)
    ensures forall f :: f in uploads ==> f.name in r
    ensures forall n :: n in r ==> exists f :: f in uploads && f.name == n
  {
    if uploads == [] then {}
    else
      var n := |uploads| - 1;
      assert forall f :: f in uploads ==> f in uploads[..n] || f == uploads[n];
      Names(uploads[..n]) + {uploads[n].name}
  }

  /** Exactly one image row per upload is created, each attached to the new post. */
  lemma {:induction false} OneImagePerUpload(post: PostId, uploads: seq<FieldFile>, first: ImageId)
    ensures |NewImages(post, uploads, first)| == |uploads|
    ensures forall i :: i in NewImages(post, uploads, first) ==> NewImages(post, uploads, first)[i].post == post
  {
    if uploads != [] {
      var n := |uploads| - 1;
      OneImagePerUpload(post, uploads[..n], first);
      assert first + n !in NewImages(post, uploads[..n], first);
    }
  }

  /**
   * `UpdateModelMixin.update` on an existing post: validate the fields sent
   * (all of them for PUT, only those present for PATCH), 400 when one is
   * invalid, otherwise store the stripped text when one was sent (200). The
   * validated `image` is set on the instance but is no field of `Post`, so
   * it is not saved.
   */
  method ApplyUpdate(db: Database, post: PostId, text: Option<string>, image: Option<Upload>, partial: bool) returns (resp: Response)
    requires db.Valid() && post in db.posts
    modifies db
    ensures db.Valid()
    ensures db.images == old(db.images) && db.comments == old(db.comments) && db.likes == old(db.likes)
    ensures db.files == old(db.files)
    ensures db.nextPost == old(db.nextPost) && db.nextImage == old(db.nextImage) && db.nextComment == old(db.nextComment)
    ensures ValidatePost(text, image, partial).Err? ==>
      resp == Response(HTTP_400_BAD_REQUEST, Invalid(ValidatePost(text, image, partial).error)) && db.posts == old(db.posts)
    ensures ValidatePost(text, image, partial).Ok? ==>
      && resp == Response(HTTP_200_OK, PostUpdated(post))
      && db.posts == old(db.posts)[post := old(db.posts)[post].(text := if text.Some? then Strip(Python, text.value) else old(db.posts)[post].text)]
  {
    var checked := ValidatePost(text, image, partial);
    if checked.Err? {
      return Response(HTTP_400_BAD_REQUEST, Invalid(checked.error));
    }
    if checked.value.text.Some? {
      db.posts := db.posts[post := db.posts[post].(text := checked.value.text.value)];
    }
    return Response(HTTP_200_OK, PostUpdated(post));
  }

  /**
   * `PostDetailView.put`: anonymous is 401, a missing post 404, a requester
   * who is not the author 403 with the post untouched; otherwise the fields
   * are validated (400) and the stripped text stored, the author unchanged.
   */
  method UpdatePost(db: Database, requester: Option<UserId>, post: PostId, text: Option<string>, image: Option<Upload>) returns (resp: Response)
    requires db.Valid()
    modifies db
    ensures db.Valid()
    ensures db.images == old(db.images) && db.comments == old(db.comments) && db.likes == old(db.likes)
    ensures db.files == old(db.files)
    ensures db.nextPost == old(db.nextPost) && db.nextImage == old(db.nextImage) && db.nextComment == old(db.nextComment)
    ensures requester.None? ==> resp == Unauthorized
    ensures requester.Some? && post !in old(db.posts) ==> resp == Missing
    ensures requester.Some? && post in old(db.posts) && old(db.posts)[post].author != requester.value ==> resp == Forbidden
    ensures requester.Some? && post in old(db.posts) && old(db.posts)[post].author == requester.value ==>
      if ValidatePost(text, image, false).Ok? then
        resp == Response(HTTP_200_OK, PostUpdated(post)) &&
        db.posts == old(db.posts)[post := old(db.posts)[post].(text := Strip(Python, text.value))]
      else
        resp == Response(HTTP_400_BAD_REQUEST, Invalid(ValidatePost(text, image, false).error))
    ensures resp.code != HTTP_200_OK ==> db.posts == old(db.posts)
  {
    if requester.None? {
      return Unauthorized;
    }
    if post !in db.posts {
      return Missing;
    }
    if db.posts[post].author != requester.value {
      return Forbidden;
    }
    resp := ApplyUpdate(db, post, text, image, false);
  }

  /**
   * PATCH on `PostDetailView`, inherited unchanged from
   * `RetrieveUpdateDestroyAPIView`: anonymous is 401 and a missing post 404,
   * but there is no owner check. Any signed-in user who sends a valid text
   * replaces another user's post text.
   */
  method PartialUpdatePost(db: Database, requester: Option<UserId>, post: PostId, text: Option<string>, image: Option<Upload>) returns (resp: Response)
    requires db.Valid()
    modifies db
    ensures db.Valid()
    ensures db.images == old(db.images) && db.comments == old(db.comments) && db.likes == old(db.likes)
    ensures db.files == old(db.files)
    ensures db.nextPost == old(db.nextPost) && db.nextImage == old(db.nextImage) && db.nextComment == old(db.nextComment)
    ensures requester.None? ==> resp == Unauthorized && db.posts == old(db.posts)
    ensures requester.Some? && post !in old(db.posts) ==> resp == Missing && db.posts == old(db.posts)
    ensures requester.Some? && post in old(db.posts) && old(db.posts)[post].author != requester.value &&
            text.Some? && PostTextField(text.value).Ok? && image.None? ==>
      resp == Response(HTTP_200_OK, PostUpdated(post)) &&
      post in db.posts && db.posts[post] == Post(old(db.posts)[post].author, Strip(Python, text.value))
    ensures requester.Some? && post in old(db.posts) ==>
      if ValidatePost(text, image, true).Ok? then
        resp == Response(HTTP_200_OK, PostUpdated(post)) &&
        db.posts == old(db.posts)[post := old(db.posts)[post].(text := if text.Some? then Strip(Python, text.value) else old(db.posts)[post].text)]
      else
        resp == Response(HTTP_400_BAD_REQUEST, Invalid(ValidatePost(text, image, true).error)) && db.posts == old(db.posts)
  {
    if requester.None? {
      return Unauthorized;
    }
    if post !in db.posts {
      return Missing;
    }
    resp := ApplyUpdate(db, post, text, image, true);
  }

  /** PATCH as evidently intended: guarded by the same owner check as PUT and DELETE. */
  method PartialUpdatePostGuarded(db: Database, requester: Option<UserId>, post: PostId, text: Option<string>, image: Option<Upload>) returns (resp: Response)
    requires db.Valid()
    modifies db
    ensures db.Valid()
    ensures db.images == old(db.images) && db.comments == old(db.comments) && db.likes == old(db.likes)
    ensures db.files == old(db.files)
    ensures db.nextPost == old(db.nextPost) && db.nextImage == old(db.nextImage) && db.nextComment == old(db.nextComment)
    ensures requester.None? ==> resp == Unauthorized
    ensures requester.Some? && post !in old(db.posts) ==> resp == Missing
    ensures requester.Some? && post in old(db.posts) && old(db.posts)[post].author != requester.value ==> resp == Forbidden
    ensures resp.code != HTTP_200_OK ==> db.posts == old(db.posts)
    ensures forall p :: p in db.posts && requester.Some? && p in old(db.posts) && db.posts[p] != old(db.posts)[p] ==>
      old(db.posts)[p].author == requester.value
    ensures requester.Some? && post in old(db.posts) && old(db.posts)[post].author == requester.value ==>
      if ValidatePost(text, image, true).Ok? then
        resp == Response(HTTP_200_OK, PostUpdated(post)) &&
        db.posts == old(db.posts)[post := old(db.posts)[post].(text := if text.Some? then Strip(Python, text.value) else old(db.posts)[post].text)]
      else
        resp == Response(HTTP_400_BAD_REQUEST, Invalid(ValidatePost(text, image, true).error))
  {
    if requester.None? {
      return Unauthorized;
    }
    if post !in db.posts {
      return Missing;
    }
    if db.posts[post].author != requester.value {
      return Forbidden;
    }
    resp := ApplyUpdate(db, post, text, image, true);
  }

  /**
   * `PostDetailView.delete`: anonymous is 401, a missing post 404, a
   * requester who is not the author 403 with nothing changed; otherwise the
   * post is deleted with its images, their files, comments and likes (204).
   */
  method DestroyPost(db: Database, requester: Option<UserId>, post: PostId) returns (resp: Response)
    requires db.Valid()
    modifies db
    ensures db.Valid()
    ensures db.nextPost == old(db.nextPost) && db.nextImage == old(db.nextImage) && db.nextComment == old(db.nextComment)
    ensures requester.None? ==> resp == Unauthorized
    ensures requester.Some? && post !in old(db.posts) ==> resp == Missing
    ensures requester.Some? && post in old(db.posts) && old(db.posts)[post].author != requester.value ==> resp == Forbidden
    ensures resp.code != HTTP_204_NO_CONTENT ==>
      db.posts == old(db.posts) && db.images == old(db.images) && db.comments == old(db.comments) &&
      db.likes == old(db.likes) && db.files == old(db.files)
    ensures requester.Some? && post in old(db.posts) && old(db.posts)[post].author == requester.value ==>
      && resp == Response(HTTP_204_NO_CONTENT, NoContent)
      && db.posts == old(db.posts) - {post}
      && db.images == old(db.images) - ImagesOf(old(db.images), post)
      && db.files == old(db.files) - StoredFiles(old(db.images), ImagesOf(old(db.images), post))
      && db.comments == CommentsNotOn(old(db.comments), post)
      && db.likes == LikesNotOn(old(db.likes), post)
  {
    if requester.None? {
      return Unauthorized;
    }
    if post !in db.posts {
      return Missing;
    }
    if db.posts[post].author != requester.value {
      return Forbidden;
    }
    db.DeletePost(post);
    return Response(HTTP_204_NO_CONTENT, NoContent);
  }

  /**
   * `CommentCreateView.create` followed by `perform_create`: the text is
   * validated before the post is looked up, so a short comment on a missing
   * post is 400, not 404. The comment's post comes from the URL and its
   * author is the requester.
   */
  method CreateComment(db: Database, requester: Option<UserId>, post: PostId, text: Option<string>) returns (resp: Response)
    requires db.Valid()
    modifies db
    ensures db.Valid()
    ensures db.posts == old(db.posts) && db.images == old(db.images) && db.likes == old(db.likes)
    ensures db.files == old(db.files) && db.nextPost == old(db.nextPost) && db.nextImage == old(db.nextImage)
    ensures requester.None? ==> resp == Unauthorized
    ensures requester.Some? && ValidateComment(text).Err? ==>
      resp == Response(HTTP_400_BAD_REQUEST, Invalid(ValidateComment(text).error))
    ensures requester.Some? && ValidateComment(text).Ok? && post !in old(db.posts) ==> resp == Missing
    ensures resp.code != HTTP_201_CREATED ==> db.comments == old(db.comments) && db.nextComment == old(db.nextComment)
    ensures requester.Some? && ValidateComment(text).Ok? && post in old(db.posts) ==>
      var id := old(db.nextComment);
      && resp == Response(HTTP_201_CREATED, CommentCreated(id))
      && id !in old(db.comments)
      && db.comments == old(db.comments)[id := Comment(post, requester.value, Strip(Python, text.value))]
  {
    if requester.None? {
      return Unauthorized;
    }
    var checked := ValidateComment(text);
    if checked.Err? {
      return Response(HTTP_400_BAD_REQUEST, Invalid(checked.error));
    }
    if post !in db.posts {
      return Missing;
    }
    var id := db.nextComment;
    db.comments := db.comments[id := Comment(post, requester.value, checked.value)];
    db.nextComment := db.nextComment + 1;
    return Response(HTTP_201_CREATED, CommentCreated(id));
  }
}
