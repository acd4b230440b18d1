/**
 * The `POST` handler of the image upload route (app/api/upload/route.ts),
 * reduced to what it decides: a chain of guard clauses with early returns,
 * then the storage key, the public URL, the metadata row and the JSON reply.
 * The session lookup, the form-data parse, the image probe, the object
 * store and the metadata insert are not run here; their results are inputs.
 */
module UploadRoute {
  import opened Wrappers
  import opened JsString

  /** 15 MiB; a file of exactly this size is accepted. */
  const MaxFileSize: nat := 15 * 1024 * 1024

  /** The MIME types the route accepts, compared by exact string equality. */
  const AllowedTypes: seq<string> := ["image/jpeg", "image/jpg", "image/png", "image/webp", "image/gif"]

  const KeyPrefix := "uploads/"
  const PublicBase := "https://images.wrk.so/"

  /** The uploaded `File`: its byte size, its MIME type and its name. */
  datatype FileInfo = FileInfo(size: nat, mimeType: string, name: string)

  /** The parsed form data: the `file` and `projectId` fields, each optional. */
  datatype Form = Form(file: Option<FileInfo>, projectId: Option<string>)

  /** The session lookup: the session's user id (`session?.user?.id`,
      `None` without a session or user), or an exception while reading the
      headers or the session. */
  datatype SessionLookup = Session(userId: Option<string>) | SessionThrew

  /** What the handler reads from the request: the session and the form
      data, `None` when the body cannot be parsed as form data
      (`request.formData()` throws). */
  datatype Request = Request(session: SessionLookup, form: Option<Form>)

  /** The image probe's answer: the width and height it found, either of
      them possibly missing, or an exception while reading or probing. */
  datatype Probe = Dimensions(width: Option<nat>, height: Option<nat>) | ProbeThrew

  datatype MediaData = MediaData(id: string)

  /** What the metadata insert returned: success with or without a row,
      a reported failure, or an exception. */
  datatype SaveResult = Saved(data: Option<MediaData>) | SaveFailed | SaveThrew

  /** The outcomes of the calls the handler makes, in the order it makes
      them: the generated UUID, the probe, the object store, the insert. */
  datatype Services = Services(uuid: string, probe: Probe, stored: bool, save: SaveResult)

  /** The `error` field of a rejection. */
  datatype UploadError = Unauthorized | MissingFile | FileTooLarge | InvalidFileType | NoDimensions | UploadFailed

  /** The JSON reply: an error with its HTTP status, or success with the
      public URL, the dimensions and the media row id if one was saved. */
  datatype Response =
    | Reject(status: nat, error: UploadError)
    | Accept(key: string, url: string, width: nat, height: nat, mediaId: Option<string>)

  /** The object written to storage. */
  datatype PutObject = PutObject(key: string, body: nat, contentType: string)

  /** The row passed to the metadata insert. */
  datatype MediaRow = MediaRow(url: string, width: nat, height: nat, alt: string, size: nat,
                               mimeType: string, projectId: Option<string>)

  /** Everything the handler does for one request: its reply, and the
      storage write and metadata insert it attempted, if any. */
  datatype Outcome = Outcome(response: Response, put: Option<PutObject>, insert: Option<MediaRow>)

  /** The `error` text of the JSON body of `Reject(status, e)`: each error
      has its own non-empty message. For `FileTooLarge` the route goes on
      with `. Your file is <n.nn>MB`; the text from `. Your file is` on is
      not modelled. */
  function ErrorText(e: UploadError): (text: string)
    ensures text != ""
  {
    match e
    case Unauthorized => "Unauthorized"
    case MissingFile => "Missing file"
    case FileTooLarge => "File size exceeds 15MB limit"
    case InvalidFileType => "Invalid file type. Only JPEG, PNG, WebP, and GIF images are allowed"
    case NoDimensions => "Could not get image dimensions"
    case UploadFailed => "Failed to upload image"
  }

  /** Two different errors never share a message. */
  lemma ErrorTextInjective(e1: UploadError, e2: UploadError)
    requires e1 != e2
    ensures ErrorText(e1) != ErrorText(e2)
  {
  }

  /** `session?.user?.id` is truthy: the lookup did not throw and gave a
      user id that is present and not the empty string. */
  predicate IsAuthenticated(session: SessionLookup)
    ensures IsAuthenticated(session) <==>
      session.Session? && session.userId.Some? && session.userId.value != ""
  {
    session.Session? && Truthy(session.userId).Some?
  }

  /** `!metadata.width || !metadata.height` is false: both present and
      positive. */
  predicate HasUsableDimensions(width: Option<nat>, height: Option<nat>)
    ensures HasUsableDimensions(width, height) <==>
      width.Some? && height.Some? && width.value > 0 && height.value > 0
  {
    width.Some? && width.value != 0 && height.Some? && height.value != 0
  }

  /** The storage key `uploads/<uuid>-<name>`. */
  function StorageKey(uuid: string, name: string): (key: string)
    ensures KeyPrefix <= key && EndsWith(key, name)
    ensures |key| == |KeyPrefix| + |uuid| + 1 + |name|
  {
    var key := KeyPrefix + uuid + "-" + name;
    assert key[|key| - |name|..] == name;
    key
  }

  /** The public URL of a stored object. */
  function PublicUrl(key: string): (url: string)
    ensures PublicBase <= url && url[|PublicBase|..] == key
  {
    PublicBase + key
  }

  /** The media id of the reply: present exactly when the insert succeeded
      and returned a row. */
  function MediaIdOf(save: SaveResult): (id: Option<string>)
    ensures id.Some? <==> save.Saved? && save.data.Some?
    ensures id.Some? ==> id.value == save.data.value.id
  {
    if save.Saved? && save.data.Some? then Some(save.data.value.id) else None
  }

  /** The handler, guard by guard in the order of the source: session
      lookup, signed-in user, form parse, missing or empty file, size limit,
      MIME type, image probe, dimensions, object store, metadata insert. An
      exception at any step gives 500; a failed insert that does not throw
      still gives success, without a media id. */
  function Post(req: Request, svc: Services): (o: Outcome)
    ensures req.session.SessionThrew? ==> o == Outcome(Reject(500, UploadFailed), None, None)
    ensures req.session.Session? && !IsAuthenticated(req.session) ==>
      o == Outcome(Reject(401, Unauthorized), None, None)
    ensures o.response.Reject? && o.response.status != 500 ==> o.put.None? && o.insert.None?
    ensures o.response.Accept? ==>
      && IsAuthenticated(req.session)
      && UploadedFile(req).Some?
      && var file := UploadedFile(req).value;
      && 0 < file.size <= MaxFileSize
      && file.mimeType in AllowedTypes
      && o.response.key == StorageKey(svc.uuid, file.name)
      && o.response.url == PublicUrl(o.response.key)
      && svc.probe.Dimensions? && HasUsableDimensions(svc.probe.width, svc.probe.height)
      && o.response.width == svc.probe.width.value && o.response.height == svc.probe.height.value
      && o.response.mediaId == MediaIdOf(svc.save)
      && o.put == Some(PutObject(o.response.key, file.size, file.mimeType))
      && o.insert == Some(MediaRow(o.response.url, o.response.width, o.response.height, file.name,
                                   file.size, file.mimeType, Truthy(req.form.value.projectId)))
  {
    if req.session.SessionThrew? then
      Outcome(Reject(500, UploadFailed), None, None)
    else if !IsAuthenticated(req.session) then
      Outcome(Reject(401, Unauthorized), None, None)
    else if req.form.None? then
      Outcome(Reject(500, UploadFailed), None, None)
    else
      var form := req.form.value;
      if form.file.None? || form.file.value.size == 0 then
        Outcome(Reject(400, MissingFile), None, None)
      else
        var file := form.file.value;
        if file.size > MaxFileSize then
          Outcome(Reject(400, FileTooLarge), None, None)
        else if file.mimeType !in AllowedTypes then
          Outcome(Reject(400, InvalidFileType), None, None)
        else
          var key := StorageKey(svc.uuid, file.name);
          match svc.probe
          case ProbeThrew =>
            Outcome(Reject(500, UploadFailed), None, None)
          case Dimensions(w, h) =>
            if !HasUsableDimensions(w, h) then
              Outcome(Reject(400, NoDimensions), None, None)
            else
              var put := PutObject(key, file.size, file.mimeType);
              if !svc.stored then
                Outcome(Reject(500, UploadFailed), Some(put), None)
              else
                var url := PublicUrl(key);
                var row := MediaRow(url, w.value, h.value, file.name, file.size, file.mimeType,
                                    Truthy(form.projectId));
                if svc.save.SaveThrew? then
                  Outcome(Reject(500, UploadFailed), Some(put), Some(row))
                else
                  Outcome(Accept(key, url, w.value, h.value, MediaIdOf(svc.save)), Some(put), Some(row))
  }

  // ---------------------------------------------------------------------
  // An independent description of the same handler: a table of checks,
  // each with the rejection it produces, and "the first check that fails
  // decides the reply".

  datatype Check =
    | SessionRead | SignedIn | FormParsed | FilePresent | WithinSizeLimit | AllowedType
    | ImageRead | UsableDimensions | ObjectStored | MetadataSettled

  /** The order in which the handler evaluates its checks. */
  const CheckOrder: seq<Check> :=
    [SessionRead, SignedIn, FormParsed, FilePresent, WithinSizeLimit, AllowedType,
     ImageRead, UsableDimensions, ObjectStored, MetadataSettled]

  /** The uploaded file, when the form was parsed and has one. */
  function UploadedFile(req: Request): (f: Option<FileInfo>)
    ensures f.Some? <==> req.form.Some? && req.form.value.file.Some?
  {
    if req.form.Some? then req.form.value.file else None
  }

  /** Whether one check passes, read on its own. */
  predicate Passes(c: Check, req: Request, svc: Services) {
    var f := UploadedFile(req);
    match c
    case SessionRead => req.session.Session?
    case SignedIn => IsAuthenticated(req.session)
    case FormParsed => req.form.Some?
    case FilePresent => f.Some? && f.value.size != 0
    case WithinSizeLimit => f.Some? && f.value.size <= MaxFileSize
    case AllowedType => f.Some? && f.value.mimeType in AllowedTypes
    case ImageRead => svc.probe.Dimensions?
    case UsableDimensions => svc.probe.Dimensions? && HasUsableDimensions(svc.probe.width, svc.probe.height)
    case ObjectStored => svc.stored
    case MetadataSettled => !svc.save.SaveThrew?
  }

  /** The reply a failing check produces. */
  function Rejection(c: Check): (r: Response)
    ensures r.Reject?
    ensures r.status == 401 <==> c == SignedIn
    ensures r.status == 500 <==> c in {SessionRead, FormParsed, ImageRead, ObjectStored, MetadataSettled}
  {
    match c
    case SignedIn => Reject(401, Unauthorized)
    case FilePresent => Reject(400, MissingFile)
    case WithinSizeLimit => Reject(400, FileTooLarge)
    case AllowedType => Reject(400, InvalidFileType)
    case UsableDimensions => Reject(400, NoDimensions)
    case SessionRead | FormParsed | ImageRead | ObjectStored | MetadataSettled => Reject(500, UploadFailed)
  }

  /** The index in `checks` of the first check that fails, if any. */
  function FirstFailed(checks: seq<Check>, req: Request, svc: Services): (r: Option<nat>)
    ensures r.Some? ==> r.value < |checks| && !Passes(checks[r.value], req, svc)
    ensures r.Some? ==> forall j :: 0 <= j < r.value ==> Passes(checks[j], req, svc)
    ensures r.None? <==> forall j :: 0 <= j < |checks| ==> Passes(checks[j], req, svc)
  {
    if checks == [] then None
    else if !Passes(checks[0], req, svc) then Some(0)
    else
      match FirstFailed(checks[1..], req, svc)
      case None => None
      case Some(i) => Some(i + 1)
  }

  /** The handler agrees with the table: when some check fails, the reply
      is the first failing check's rejection; when none fails, it is success. */
  lemma {:induction false} PostFollowsCheckOrder(req: Request, svc: Services)
    ensures match FirstFailed(CheckOrder, req, svc)
      case Some(i) => Post(req, svc).response == Rejection(CheckOrder[i])
      case None => Post(req, svc).response.Accept?
  {
    var r := FirstFailed(CheckOrder, req, svc);
    var n := if r.Some? then r.value else |CheckOrder|;
    if n > 0 { assert CheckOrder[0] == SessionRead && Passes(CheckOrder[0], req, svc); }
    if n > 1 { assert CheckOrder[1] == SignedIn && Passes(CheckOrder[1], req, svc); }
    if n > 2 { assert CheckOrder[2] == FormParsed && Passes(CheckOrder[2], req, svc); }
    if n > 3 { assert CheckOrder[3] == FilePresent && Passes(CheckOrder[3], req, svc); }
    if n > 4 { assert CheckOrder[4] == WithinSizeLimit && Passes(CheckOrder[4], req, svc); }
    if n > 5 { assert CheckOrder[5] == AllowedType && Passes(CheckOrder[5], req, svc); }
    if n > 6 { assert CheckOrder[6] == ImageRead && Passes(CheckOrder[6], req, svc); }
    if n > 7 { assert CheckOrder[7] == UsableDimensions && Passes(CheckOrder[7], req, svc); }
    if n > 8 { assert CheckOrder[8] == ObjectStored && Passes(CheckOrder[8], req, svc); }
    if n > 9 { assert CheckOrder[9] == MetadataSettled && Passes(CheckOrder[9], req, svc); }
  }

  // ---------------------------------------------------------------------
  // Boundary cases and consequences of the order.

  /** Without a signed-in user, nothing about the form or the services
      matters: every such request gets the same reply (401, or 500 when the
      session lookup threw) and touches nothing. */
  lemma UnauthorizedIgnoresForm(session: SessionLookup, f1: Option<Form>, f2: Option<Form>, s1: Services, s2: Services)
    requires !IsAuthenticated(session)
    ensures Post(Request(session, f1), s1) == Post(Request(session, f2), s2)
    ensures Post(Request(session, f1), s1).response ==
      if session.SessionThrew? then Reject(500, UploadFailed) else Reject(401, Unauthorized)
  {
  }

  /** A file of exactly 15 MiB is not rejected for its size; one byte more is. */
  lemma SizeLimitIsInclusive(userId: string, name: string, mimeType: string, pid: Option<string>, svc: Services)
    requires userId != ""
    ensures Post(Request(Session(Some(userId)), Some(Form(Some(FileInfo(MaxFileSize, mimeType, name)), pid))), svc).response
            != Reject(400, FileTooLarge)
    ensures Post(Request(Session(Some(userId)), Some(Form(Some(FileInfo(MaxFileSize + 1, mimeType, name)), pid))), svc).response
            == Reject(400, FileTooLarge)
  {
  }

  /** An oversized file of a forbidden type gets the size error, not the type error. */
  lemma SizeCheckedBeforeType(req: Request, svc: Services)
    requires IsAuthenticated(req.session)
    requires UploadedFile(req).Some? && UploadedFile(req).value.size > MaxFileSize
    requires UploadedFile(req).value.mimeType !in AllowedTypes
    ensures Post(req, svc).response == Reject(400, FileTooLarge)
  {
  }

  /** Whatever the insert reports, short of throwing, the upload succeeds;
      the media id is present exactly when a row came back. */
  lemma SaveFailureStillSucceeds(req: Request, svc: Services)
    requires forall j :: 0 <= j < 9 ==> Passes(CheckOrder[j], req, svc)
    ensures Post(req, svc).response.Accept? <==> !svc.save.SaveThrew?
    ensures Post(req, svc).response.Accept? ==>
      (Post(req, svc).response.mediaId.Some? <==> svc.save.Saved? && svc.save.data.Some?)
  {
    assert Passes(CheckOrder[0], req, svc) && Passes(CheckOrder[1], req, svc) && Passes(CheckOrder[2], req, svc);
    assert Passes(CheckOrder[3], req, svc) && Passes(CheckOrder[4], req, svc) && Passes(CheckOrder[5], req, svc);
    assert Passes(CheckOrder[6], req, svc) && Passes(CheckOrder[7], req, svc) && Passes(CheckOrder[8], req, svc);
  }

  /** An accepted upload's URL starts with the public uploads prefix and
      ends with the file's name. */
  lemma AcceptedUrlShape(req: Request, svc: Services)
    requires Post(req, svc).response.Accept?
    ensures PublicBase + KeyPrefix <= Post(req, svc).response.url
    ensures EndsWith(Post(req, svc).response.url, req.form.value.file.value.name)
  {
  }

  /** With UUIDs of one length (`randomUUID` always gives 36 characters),
      the key determines both the UUID and the name: two uploads with
      different UUIDs never share a storage key. */
  lemma {:induction false} StorageKeyInjective(u1: string, n1: string, u2: string, n2: string)
    requires |u1| == |u2|
    requires StorageKey(u1, n1) == StorageKey(u2, n2)
    ensures u1 == u2 && n1 == n2
  {
    var k := StorageKey(u1, n1);
    var p := |KeyPrefix|;
    assert u1 == k[p..p + |u1|];
    assert u2 == k[p..p + |u2|];
    assert n1 == k[p + |u1| + 1..];
    assert n2 == k[p + |u2| + 1..];
  }
}
