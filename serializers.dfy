/**
 * The serializers' validators and computed fields: post and comment text,
 * image size, the registration rules, the like count and the image URL.
 */
module Serializers {
  import opened Outcomes
  import opened Text
  import opened Models

  const PostTextMin: nat := 5
  const CommentTextMin: nat := 2
  const PasswordMin: nat := 8
  const UsernameMin: nat := 4

  const PostTextTooShort := "Текст поста должен содержать не менее 5 символов."
  const CommentTooShort := "Комментарий должен содержать не менее 2 символов."
  const ImageTooBig := "Размер изображения не должен превышать 5MB."
  const PasswordTooShort := "Пароль должен содержать не менее 8 символов."
  const UsernameTooShort := "Имя пользователя должно содержать не менее 4 символов."
  const EmailTaken := "Пользователь с таким email уже существует."
  const EmailMalformed := "Enter a valid email address."

  /** `PostSerializer.validate_text`: the value itself when its stripped length is at least 5. */
  function ValidatePostText(value: string): (r: Result<string, string>)
    ensures r.Ok? <==> |Strip(Python, value)| >= PostTextMin
    ensures r.Ok? ==> r.value == value
    ensures r.Err? ==> r.error == PostTextTooShort
  {
    if |Strip(Python, value)| < PostTextMin then Err(PostTextTooShort) else Ok(value)
  }

  /** `CommentSerializer.validate_text`: the value itself when its stripped length is at least 2. */
  function ValidateCommentText(value: string): (r: Result<string, string>)
    ensures r.Ok? <==> |Strip(Python, value)| >= CommentTextMin
    ensures r.Ok? ==> r.value == value
    ensures r.Err? ==> r.error == CommentTooShort
  {
    if |Strip(Python, value)| < CommentTextMin then Err(CommentTooShort) else Ok(value)
  }

  /**
   * Post text is accepted exactly when it has two characters that are not
   * white space at least four positions apart; surrounding white space
   * neither helps nor hurts, and the accepted value keeps it.
   */
  lemma PostTextAccepted(value: string)
    ensures ValidatePostText(value).Ok? <==>
      exists i, j :: 0 <= i <= j < |value| && j - i + 1 >= 5 && !IsPythonSpace(value[i]) && !IsPythonSpace(value[j])
  {
    StrippedAtLeast(Python, value, PostTextMin);
  }

  /** Comment text is accepted exactly when it has two characters that are not white space. */
  lemma CommentTextAccepted(value: string)
    ensures ValidateCommentText(value).Ok? <==>
      exists i, j :: 0 <= i < j < |value| && !IsPythonSpace(value[i]) && !IsPythonSpace(value[j])
  {
    StrippedAtLeast(Python, value, CommentTextMin);
    if exists i, j :: 0 <= i <= j < |value| && j - i + 1 >= 2 && !IsPythonSpace(value[i]) && !IsPythonSpace(value[j]) {
      var i, j :| 0 <= i <= j < |value| && j - i + 1 >= 2 && !IsPythonSpace(value[i]) && !IsPythonSpace(value[j]);
      assert 0 <= i < j < |value|;
    }
  }

  /** A text that is white space only, or shorter than the minimum, is never accepted. */
  lemma ShortTextRejected(value: string)
    ensures |value| < PostTextMin ==> ValidatePostText(value).Err?
    ensures |value| < CommentTextMin ==> ValidateCommentText(value).Err?
    ensures (forall k :: 0 <= k < |value| ==> IsPythonSpace(value[k])) ==>
      ValidatePostText(value).Err? && ValidateCommentText(value).Err?
  {
    if |Strip(Python, value)| > 0 {
      NonSpaceInSpan(Python, value, SpanStart(Python, value));
    }
  }

  /** An uploaded file: the stored file media storage would make of it, and its size in bytes. */
  datatype Upload = Upload(file: FieldFile, size: nat)

  /** `PostSerializer.validate_image`: the upload itself when it is at most 5 MB. */
  function ValidateImage(value: Upload): (r: Result<Upload, string>)
    ensures r.Ok? <==> value.size <= MaxImageSize
    ensures r.Ok? ==> r.value == value
    ensures r.Err? ==> r.error == ImageTooBig
  {
    if value.size > 5 * 1024 * 1024 then Err(ImageTooBig) else Ok(value)
  }

  /** The serializer's image check and the model field's validator accept the same files. */
  lemma ImageChecksAgree(value: Upload)
    ensures ValidateImage(value).Ok? <==> ValidateImageSize(value.size).None?
  {
  }

  const BlankField := "This field may not be blank."
  const NullCharacters := "Null characters are not allowed."
  const RequiredField := "This field is required."

  /**
   * The input step of the DRF `CharField` that a model `TextField` gets:
   * surrounding white space is stripped (`trim_whitespace`), a text that is
   * then empty is refused (`allow_blank` is false), and so is one holding a
   * NUL character. Only what passes reaches `validate_text`.
   */
  function CharFieldInput(value: string): (r: Result<string, string>)
    ensures r.Ok? <==> Strip(Python, value) != [] && '\0' !in Strip(Python, value)
    ensures r.Ok? ==> r.value == Strip(Python, value)
    ensures r.Err? ==> r.error == if Strip(Python, value) == [] then BlankField else NullCharacters
  {
    var s := Strip(Python, value);
    if s == [] then Err(BlankField) else if '\0' in s then Err(NullCharacters) else Ok(s)
  }

  /**
   * The `text` field of `PostSerializer`: the `CharField` step, then
   * `validate_text` on the stripped value, which is what gets stored.
   */
  function PostTextField(value: string): (r: Result<string, string>)
    ensures r.Ok? <==> |Strip(Python, value)| >= PostTextMin && '\0' !in Strip(Python, value)
    ensures r.Ok? ==> r.value == Strip(Python, value)
    ensures Strip(Python, value) == [] ==> r == Err(BlankField)
    ensures Strip(Python, value) != [] && '\0' !in Strip(Python, value) && |Strip(Python, value)| < PostTextMin ==>
      r == Err(PostTextTooShort)
  {
    match CharFieldInput(value)
    case Err(e) => Err(e)
    case Ok(s) =>
      StripIdempotent(Python, value);
      ValidatePostText(s)
  }

  /** The `text` field of `CommentSerializer`, likewise. */
  function CommentTextField(value: string): (r: Result<string, string>)
    ensures r.Ok? <==> |Strip(Python, value)| >= CommentTextMin && '\0' !in Strip(Python, value)
    ensures r.Ok? ==> r.value == Strip(Python, value)
    ensures Strip(Python, value) == [] ==> r == Err(BlankField)
    ensures Strip(Python, value) != [] && '\0' !in Strip(Python, value) && |Strip(Python, value)| < CommentTextMin ==>
      r == Err(CommentTooShort)
  {
    match CharFieldInput(value)
    case Err(e) => Err(e)
    case Ok(s) =>
      StripIdempotent(Python, value);
      ValidateCommentText(s)
  }

  /** Sending back a stored post text gives the same text: what is stored is already in its final form. */
  lemma StoredTextIsStable(value: string)
    requires PostTextField(value).Ok?
    ensures PostTextField(PostTextField(value).value) == PostTextField(value)
  {
    StripIdempotent(Python, value);
  }

  const TextField := "text"
  const ImageField := "image"

  /** The validated data of `PostSerializer`: the text when it was sent, and the image when one was. */
  datatype PostData = PostData(text: Option<string>, image: Option<Upload>)

  /**
   * `PostSerializer` validation of the writable fields, `text` then
   * `image`. A field that was not sent is skipped in a partial update and,
   * for `text`, required otherwise; `image` is optional. Errors are reported
   * per field in that order.
   */
  function ValidatePost(text: Option<string>, image: Option<Upload>, partial: bool): (r: Result<PostData, seq<FieldError>>)
    ensures r.Ok? <==>
      (if text.Some? then PostTextField(text.value).Ok? else partial) && (image.None? || image.value.size <= MaxImageSize)
    ensures r.Ok? ==> r.value.image == image
    ensures r.Ok? ==> r.value.text == if text.Some? then Some(Strip(Python, text.value)) else None
    ensures r.Err? ==> (TextField in FieldsOf(r.error) <==> if text.Some? then PostTextField(text.value).Err? else !partial)
    ensures r.Err? ==> (ImageField in FieldsOf(r.error) <==> image.Some? && image.value.size > MaxImageSize)
    ensures r.Err? ==> 1 <= |r.error| <= 2 && (|r.error| == 2 ==> r.error[0].field == TextField && r.error[1].field == ImageField)
    ensures text.None? && !partial ==> r.Err? && r.error[0] == FieldError(TextField, [RequiredField])
  {
    var textErrors :=
      if text.None? then (if partial then [] else [FieldError(TextField, [RequiredField])])
      else match PostTextField(text.value)
        case Err(e) => [FieldError(TextField, [e])]
        case Ok(_) => [];
    var imageErrors :=
      if image.Some? && ValidateImage(image.value).Err? then [FieldError(ImageField, [ImageTooBig])] else [];
    var errors := textErrors + imageErrors;
    if errors != [] then Err(errors)
    else Ok(PostData(if text.Some? then Some(Strip(Python, text.value)) else None, image))
  }

  /**
   * `CommentSerializer` validation of its one writable field: `text` is
   * required, then goes through the `CharField` step and `validate_text`.
   */
  function ValidateComment(text: Option<string>): (r: Result<string, seq<FieldError>>)
    ensures r.Ok? <==> text.Some? && |Strip(Python, text.value)| >= CommentTextMin && '\0' !in Strip(Python, text.value)
    ensures r.Ok? ==> r.value == Strip(Python, text.value)
    ensures r.Err? ==> |r.error| == 1 && r.error[0].field == TextField && |r.error[0].messages| == 1
    ensures text.None? ==> r == Err([FieldError(TextField, [RequiredField])])
    ensures text.Some? && Strip(Python, text.value) == [] ==> r == Err([FieldError(TextField, [BlankField])])
  {
    if text.None? then Err([FieldError(TextField, [RequiredField])])
    else match CommentTextField(text.value)
      case Err(e) => Err([FieldError(TextField, [e])])
      case Ok(s) => Ok(s)
  }

  /** The fields of the registration form, in the order the serializer declares them. */
  datatype Registration = Registration(username: string, email: string, password: string)

  const UsernameField := "username"
  const EmailField := "email"
  const PasswordField := "password"

  /** The messages reported against one field. */
  datatype FieldError = FieldError(field: string, messages: seq<string>)

  function UsernameErrors(data: Registration): seq<FieldError>
  {
    if |data.username| < UsernameMin then [FieldError(UsernameField, [UsernameTooShort])] else []
  }

  /**
   * The email field: the field's own format check (outside this model, given
   * as `wellFormed`) runs first, and `validate_email` only on a well-formed
   * address.
   */
  function EmailErrors(data: Registration, wellFormed: bool, emails: set<string>): seq<FieldError>
  {
    if !wellFormed then [FieldError(EmailField, [EmailMalformed])]
    else if data.email in emails then [FieldError(EmailField, [EmailTaken])]
    else []
  }

  function PasswordErrors(data: Registration): seq<FieldError>
  {
    if |data.password| < PasswordMin then [FieldError(PasswordField, [PasswordTooShort])] else []
  }

  function FieldRank(field: string): nat
  {
    if field == UsernameField then 0 else if field == EmailField then 1 else 2
  }

  function FieldsOf(errors: seq<FieldError>): set<string>
  {
    set e | e in errors :: e.field
  }

  /**
   * `UserRegisterSerializer` validation: the username needs 4 characters,
   * the password 8, and the email must be well formed and unused by every
   * existing user (`emails`). Errors come per field, in declaration order.
   */
  function ValidateRegistration(data: Registration, wellFormed: bool, emails: set<string>): (r: Result<Registration, seq<FieldError>>)
    ensures r.Ok? <==> |data.username| >= UsernameMin && |data.password| >= PasswordMin && wellFormed && data.email !in emails
    ensures r.Ok? ==> r.value == data
    ensures r.Err? ==> r.error != []
    ensures r.Err? ==> (UsernameField in FieldsOf(r.error) <==> |data.username| < UsernameMin)
    ensures r.Err? ==> (PasswordField in FieldsOf(r.error) <==> |data.password| < PasswordMin)
    ensures r.Err? ==> (EmailField in FieldsOf(r.error) <==> !wellFormed || data.email in emails)
    ensures r.Err? ==> forall i, j :: 0 <= i < j < |r.error| ==> FieldRank(r.error[i].field) < FieldRank(r.error[j].field)
    ensures r.Err? ==> forall e :: e in r.error ==> |e.messages| == 1
  {
    var errors := UsernameErrors(data) + EmailErrors(data, wellFormed, emails) + PasswordErrors(data);
    RegistrationErrorsOrdered(UsernameErrors(data), EmailErrors(data, wellFormed, emails), PasswordErrors(data));
    if errors == [] then Ok(data) else Err(errors)
  }

  /** Three per-field lists of at most one error each, concatenated in declaration order. */
  lemma RegistrationErrorsOrdered(u: seq<FieldError>, e: seq<FieldError>, p: seq<FieldError>)
    requires |u| <= 1 && |e| <= 1 && |p| <= 1
    requires u != [] ==> u[0].field == UsernameField
    requires e != [] ==> e[0].field == EmailField
    requires p != [] ==> p[0].field == PasswordField
    requires (u != [] ==> |u[0].messages| == 1) && (e != [] ==> |e[0].messages| == 1) && (p != [] ==> |p[0].messages| == 1)
    ensures forall x :: x in u + e + p ==> |x.messages| == 1
    ensures UsernameField in FieldsOf(u + e + p) <==> u != []
    ensures EmailField in FieldsOf(u + e + p) <==> e != []
    ensures PasswordField in FieldsOf(u + e + p) <==> p != []
    ensures forall i, j :: 0 <= i < j < |u + e + p| ==> FieldRank((u + e + p)[i].field) < FieldRank((u + e + p)[j].field)
  {
    FieldsOfAppend(u + e, p);
    FieldsOfAppend(u, e);
    FieldsOfAtMostOne(u);
    FieldsOfAtMostOne(e);
    FieldsOfAtMostOne(p);
    assert UsernameField[0] != EmailField[0] && UsernameField[0] != PasswordField[0] && EmailField[0] != PasswordField[0];
    RanksIncrease(u, e, p);
    forall x | x in u + e + p
      ensures |x.messages| == 1
    {
      assert x in u || x in e || x in p;
    }
  }

  lemma FieldsOfAppend(a: seq<FieldError>, b: seq<FieldError>)
    ensures FieldsOf(a + b) == FieldsOf(a) + FieldsOf(b)
  {
  }

  lemma FieldsOfAtMostOne(a: seq<FieldError>)
    requires |a| <= 1
    ensures FieldsOf(a) == if a == [] then {} else {a[0].field}
  {
  }

  lemma RanksIncrease(u: seq<FieldError>, e: seq<FieldError>, p: seq<FieldError>)
    requires |u| <= 1 && |e| <= 1 && |p| <= 1
    requires u != [] ==> u[0].field == UsernameField
    requires e != [] ==> e[0].field == EmailField
    requires p != [] ==> p[0].field == PasswordField
    ensures forall i, j :: 0 <= i < j < |u + e + p| ==> FieldRank((u + e + p)[i].field) < FieldRank((u + e + p)[j].field)
  {
    var all := u + e + p;
    forall i, j | 0 <= i < j < |all|
      ensures FieldRank(all[i].field) < FieldRank(all[j].field)
    {
      RankAt(u, e, p, i);
      RankAt(u, e, p, j);
    }
  }

  /** The rank of the error at position `k` follows from the segment it lies in. */
  lemma RankAt(u: seq<FieldError>, e: seq<FieldError>, p: seq<FieldError>, k: nat)
    requires |u| <= 1 && |e| <= 1 && |p| <= 1 && k < |u + e + p|
    requires u != [] ==> u[0].field == UsernameField
    requires e != [] ==> e[0].field == EmailField
    requires p != [] ==> p[0].field == PasswordField
    ensures FieldRank((u + e + p)[k].field) == if k < |u| then 0 else if k < |u| + |e| then 1 else 2
  {
    if k < |u| {
      assert (u + e + p)[k] == u[0];
    } else if k < |u| + |e| {
      assert (u + e + p)[k] == e[0];
    } else {
      assert (u + e + p)[k] == p[0];
    }
  }

  /** Registering again with an email that is already taken is always refused, whatever the other fields. */
  lemma DuplicateEmailRefused(data: Registration, emails: set<string>, wellFormed: bool)
    requires data.email in emails
    ensures ValidateRegistration(data, wellFormed, emails).Err?
  {
  }

  /** The likes on a post. */
  function LikesOn(likes: set<Like>, post: PostId): set<Like>
  {
    set l | l in likes && l.0 == post
  }

  /** The users who like a post. */
  function UsersLiking(likes: set<Like>, post: PostId): set<UserId>
  {
    set l | l in likes && l.0 == post :: l.1
  }

  /**
   * `get_likes_count`: the number of like rows on the post. Because a pair
   * (post, user) appears at most once, it is also the number of distinct
   * users who like the post.
   */
  function LikesCount(likes: set<Like>, post: PostId): (n: nat)
    ensures n == |UsersLiking(likes, post)|
  {
    LikeRowsAreUsers(likes, post);
    |LikesOn(likes, post)|
  }

  lemma {:induction false} LikeRowsAreUsers(likes: set<Like>, post: PostId)
    ensures |LikesOn(likes, post)| == |UsersLiking(likes, post)|
    decreases |likes|
  {
    if likes != {} {
      var x :| x in likes;
      var rest := likes - {x};
      LikeRowsAreUsers(rest, post);
      RemoveOneLike(likes, x, post);
    }
  }

  /** Taking one row out of the table takes it out of its post's rows and its user out of that post's users. */
  lemma RemoveOneLike(likes: set<Like>, x: Like, post: PostId)
    requires x in likes
    ensures x.0 == post ==> LikesOn(likes, post) == LikesOn(likes - {x}, post) + {x} && x !in LikesOn(likes - {x}, post)
    ensures x.0 == post ==> UsersLiking(likes, post) == UsersLiking(likes - {x}, post) + {x.1} && x.1 !in UsersLiking(likes - {x}, post)
    ensures x.0 != post ==> LikesOn(likes, post) == LikesOn(likes - {x}, post)
    ensures x.0 != post ==> UsersLiking(likes, post) == UsersLiking(likes - {x}, post)
  {
  }

  /**
   * A toggle moves the like count of its post by exactly one, up when the
   * pair was absent and down when it was present, and leaves every other
   * post's count alone.
   */
  lemma ToggleMovesCount(likes: set<Like>, l: Like, other: PostId)
    requires other != l.0
    ensures LikesCount(Toggle(likes, l), l.0) == LikesCount(likes, l.0) + (if l in likes then -1 else 1)
    ensures LikesCount(Toggle(likes, l), other) == LikesCount(likes, other)
  {
    var after := Toggle(likes, l);
    if l in likes {
      assert LikesOn(likes, l.0) == LikesOn(after, l.0) + {l};
    } else {
      assert LikesOn(after, l.0) == LikesOn(likes, l.0) + {l};
    }
    assert LikesOn(after, other) == LikesOn(likes, other);
  }

  /** The part of the request `build_absolute_uri` uses: scheme and host, as in `http://127.0.0.1:8000`. */
  datatype Request = Request(origin: string)

  /**
   * `get_image`: nothing when the image field is not set; otherwise the file's
   * URL, made absolute with the request's scheme and host when there is a
   * request.
   */
  function GetImage(image: Option<FieldFile>, request: Option<Request>): (r: Option<string>)
    ensures r.None? <==> !IsSet(image)
    ensures r.Some? && request.None? ==> r.value == image.value.url
    ensures r.Some? && request.Some? ==> r.value == request.value.origin + image.value.url
  {
    if IsSet(image) then
      if request.Some? then Some(request.value.origin + image.value.url) else Some(image.value.url)
    else None
  }

  /** The absolute form is the relative form behind the request's origin. */
  lemma AbsoluteExtendsRelative(image: Option<FieldFile>, req: Request)
    requires IsSet(image)
    ensures GetImage(image, Some(req)).value[..|req.origin|] == req.origin
    ensures GetImage(image, Some(req)).value[|req.origin|..] == GetImage(image, None).value
  {
  }
}
