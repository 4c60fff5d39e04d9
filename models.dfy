/**
 * The database of the posts application: posts, their images, comments and
 * likes, the image size validator, the short text shown for a row, and what
 * deleting a post or an image removes.
 */
module Models {
  import opened Outcomes

  type UserId = nat
  type PostId = nat
  type ImageId = nat
  type CommentId = nat

  /** The largest accepted image, in bytes (5 MB). */
  const MaxImageSize: nat := 5 * 1024 * 1024
  const ImageTooLarge := "Максимальный размер изображения 5MB"

  /** `validate_image_size`: `None` when the file is small enough, else the message it raises. */
  function ValidateImageSize(size: nat): (r: Option<string>)
    ensures r.None? <==> size <= MaxImageSize
    ensures r.Some? ==> r.value == ImageTooLarge
  {
    if size > MaxImageSize then Some(ImageTooLarge) else None
  }

  /** The bound is inclusive: a file of exactly 5 MB passes, one byte more fails. */
  lemma ImageSizeBoundary()
    ensures ValidateImageSize(5242880).None?
    ensures ValidateImageSize(5242881).Some?
  {
  }

  /** How many characters of the text a row's string form keeps. */
  const PreviewLength: nat := 50

  /** Python's `text[:50]`. */
  function Preview(text: string): (r: string)
    ensures r <= text
    ensures |r| == if |text| < PreviewLength then |text| else PreviewLength
  {
    if |text| <= PreviewLength then text else text[..PreviewLength]
  }

  datatype Post = Post(author: UserId, text: string)

  /** `Post.__str__`. */
  function PostStr(p: Post): (r: string)
    ensures r <= p.text
    ensures |r| == if |p.text| < PreviewLength then |p.text| else PreviewLength
  {
    Preview(p.text)
  }

  /** A stored file: its name in media storage and the URL it is served from. */
  datatype FieldFile = FieldFile(name: string, url: string)

  /** A file field is truthy when it holds a file with a non-empty name. */
  predicate IsSet(f: Option<FieldFile>)
  {
    f.Some? && f.value.name != ""
  }

  datatype PostImage = PostImage(post: PostId, image: Option<FieldFile>)

  datatype Comment = Comment(post: PostId, author: UserId, text: string)

  /** `Comment.__str__`. */
  function CommentStr(c: Comment): (r: string)
    ensures r <= c.text
    ensures |r| == if |c.text| < PreviewLength then |c.text| else PreviewLength
  {
    Preview(c.text)
  }

  /**
   * A like row. The pair (post, user) is unique in the table, so the table is
   * a set of pairs.
   */
  type Like = (PostId, UserId)

  /** The like table after adding the pair when it is absent and removing it when it is present. */
  function Toggle(likes: set<Like>, l: Like): (r: set<Like>)
    ensures l in r <==> l !in likes
    ensures forall m :: m != l ==> (m in r <==> m in likes)
  {
    if l in likes then likes - {l} else likes + {l}
  }

  /** Toggling twice restores the table. */
  lemma ToggleTwice(likes: set<Like>, l: Like)
    ensures Toggle(Toggle(likes, l), l) == likes
  {
  }

  /** The images attached to a post. */
  function ImagesOf(images: map<ImageId, PostImage>, post: PostId): set<ImageId>
  {
    set i | i in images && images[i].post == post
  }

  /** The names of the stored files of the given images that have a file set. */
  function StoredFiles(images: map<ImageId, PostImage>, ids: set<ImageId>): set<string>
  {
    set i | i in ids && i in images && IsSet(images[i].image) :: images[i].image.value.name
  }

  /** The comments that do not belong to the post. */
  function CommentsNotOn(comments: map<CommentId, Comment>, post: PostId): (r: map<CommentId, Comment>)
    ensures forall c :: c in r <==> c in comments && comments[c].post != post
  {
    map c | c in comments && comments[c].post != post :: comments[c]
  }

  /** The likes that are not on the post. */
  function LikesNotOn(likes: set<Like>, post: PostId): (r: set<Like>)
    ensures forall l :: l in r <==> l in likes && l.0 != post
  {
    set l | l in likes && l.0 != post
  }

  /** The tables of the application and the media storage. */
  class Database {
    var posts: map<PostId, Post>
    var images: map<ImageId, PostImage>
    var comments: map<CommentId, Comment>
    var likes: set<Like>
    /** Names of the files present in media storage. */
    var files: set<string>
    /** The next value of each table's auto-increment key. */
    var nextPost: nat
    var nextImage: nat
    var nextComment: nat

    /** Every foreign key points at a stored post, and every key is below its counter. */
    ghost predicate Valid()
      reads this
    {
      && (forall i :: i in images ==> images[i].post in posts)
      && (forall c :: c in comments ==> comments[c].post in posts)
      && (forall l :: l in likes ==> l.0 in posts)
      && (forall p :: p in posts ==> p < nextPost)
      && (forall i :: i in images ==> i < nextImage)
      && (forall c :: c in comments ==> c < nextComment)
    }

    constructor ()
      ensures Valid()
      ensures posts == map[] && images == map[] && comments == map[] && likes == {} && files == {}
    {
      posts, images, comments, likes, files := map[], map[], map[], {}, {};
      nextPost, nextImage, nextComment := 0, 0, 0;
    }

    /** `Post.objects.create`: a new row under the next key. */
    method AddPost(author: UserId, text: string) returns (id: PostId)
      requires Valid()
      modifies this
      ensures Valid()
      ensures id == old(nextPost) && id !in old(posts)
      ensures posts == old(posts)[id := Post(author, text)] && nextPost == old(nextPost) + 1
      ensures images == old(images) && comments == old(comments) && likes == old(likes) && files == old(files)
      ensures nextImage == old(nextImage) && nextComment == old(nextComment)
    {
      id := nextPost;
      posts := posts[id := Post(author, text)];
      nextPost := nextPost + 1;
    }

    /** `PostImage.objects.create` with an uploaded file: the file is saved to storage and a row made under the next key. */
    method AddImage(post: PostId, file: FieldFile)
      requires Valid() && post in posts
      modifies this
      ensures Valid()
      ensures images == old(images)[old(nextImage) := PostImage(post, Some(file))] && nextImage == old(nextImage) + 1
      ensures old(nextImage) !in old(images)
      ensures files == old(files) + {file.name}
      ensures posts == old(posts) && comments == old(comments) && likes == old(likes)
      ensures nextPost == old(nextPost) && nextComment == old(nextComment)
    {
      images := images[nextImage := PostImage(post, Some(file))];
      files := files + {file.name};
      nextImage := nextImage + 1;
    }

    /**
     * Deleting one `PostImage` row: the `pre_delete` receiver first removes
     * the stored file when the field is set, then the row goes.
     */
    method DeleteImage(id: ImageId)
      requires Valid() && id in images
      modifies this
      ensures Valid()
      ensures images == old(images) - {id}
      ensures files == if IsSet(old(images)[id].image) then old(files) - {old(images)[id].image.value.name} else old(files)
      ensures posts == old(posts) && comments == old(comments) && likes == old(likes)
      ensures nextPost == old(nextPost) && nextImage == old(nextImage) && nextComment == old(nextComment)
    {
      var row := images[id];
      if IsSet(row.image) {
        files := files - {row.image.value.name};
      }
      images := images - {id};
    }

    /**
     * Deleting a post: the `pre_delete` receiver deletes each of its images
     * (and so their files), then the post's comments and likes cascade and the
     * post row goes.
     */
    method DeletePost(id: PostId)
      requires Valid() && id in posts
      modifies this
      ensures Valid()
      ensures posts == old(posts) - {id}
      ensures images == old(images) - ImagesOf(old(images), id)
      ensures files == old(files) - StoredFiles(old(images), ImagesOf(old(images), id))
      ensures comments == CommentsNotOn(old(comments), id)
      ensures likes == LikesNotOn(old(likes), id)
      ensures forall i :: i in images ==> images[i].post != id
      ensures forall c :: c in comments ==> comments[c].post != id
      ensures forall l :: l in likes ==> l.0 != id
      ensures nextPost == old(nextPost) && nextImage == old(nextImage) && nextComment == old(nextComment)
    {
      var pending := ImagesOf(images, id);
      ghost var doomed := pending;
      while pending != {}
        invariant Valid()
        invariant pending <= doomed
        invariant images == old(images) - (doomed - pending)
        invariant files == old(files) - StoredFiles(old(images), doomed - pending)
        invariant posts == old(posts) && comments == old(comments) && likes == old(likes)
        invariant nextPost == old(nextPost) && nextImage == old(nextImage) && nextComment == old(nextComment)
        decreases pending
      {
        var i :| i in pending;
        ghost var done := doomed - pending;
        DeleteImage(i);
        pending := pending - {i};
        assert doomed - pending == done + {i};
        StoredFilesAdd(old(images), done, i);
      }
      assert doomed - pending == doomed;
      assert forall i :: i in images ==> images[i].post != id;
      comments := CommentsNotOn(comments, id);
      likes := LikesNotOn(likes, id);
      posts := posts - {id};
    }
  }

  /** The stored files of one more image are those before plus that image's file, if it has one. */
  lemma StoredFilesAdd(images: map<ImageId, PostImage>, ids: set<ImageId>, i: ImageId)
    requires i in images
    ensures StoredFiles(images, ids + {i}) ==
      StoredFiles(images, ids) + (if IsSet(images[i].image) then {images[i].image.value.name} else {})
  {
  }
}
