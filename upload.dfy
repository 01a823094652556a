/**
 * The upload endpoint app/api/files/upload/route.ts: a multipart form with a
 * `file` and a `sessionId` is checked in a fixed order (file present, session
 * present, MIME type allowed, size within 10 MiB); an accepted file goes into
 * the process-wide temporary store under a fresh id, after which entries older
 * than one hour are swept, and the reply describes the stored file.
 *
 * The fresh id (`randomUUID`) and the clock are parameters; the file's bytes
 * and their base64 text are not modelled.
 */
module Upload {
  import opened Outcomes
  import opened Guards
  import Text

  const IMAGE_TYPES: seq<string> := ["image/jpeg", "image/png", "image/gif", "image/webp"]
  const AUDIO_TYPES: seq<string> := ["audio/mpeg", "audio/wav", "audio/ogg", "audio/m4a", "audio/mp4"]
  /** 10 MiB. */
  const MAX_FILE_SIZE: int := 10 * 1024 * 1024
  /** Entries older than this many milliseconds are swept. */
  const FILE_TTL_MS: int := 60 * 60 * 1000
  const URL_PREFIX: string := "/api/files/"

  const NO_FILE_ERROR: string := "No se encontró archivo"
  const NO_SESSION_ERROR: string := "sessionId es requerido"
  const TYPE_ERROR: string := "Tipo de archivo no permitido. Solo imágenes y audios."
  const SIZE_ERROR: string := "Archivo demasiado grande. Máximo 10MB."
  const PROCESSING_ERROR: string := "Error procesando archivo"

  /** A multipart form entry: a file, or a plain text field. */
  datatype FormEntry = FilePart(name: string, mimeType: string, size: int) | TextPart(text: string)

  /** The request: a form that could not be read (with the error's message), or the entries under `file` and `sessionId`. */
  datatype UploadRequest =
    | Unreadable(message: string)
    | Form(file: Option<FormEntry>, sessionId: Option<FormEntry>)

  datatype FileKind = Image | Audio

  /** What the store keeps for an upload (its bytes aside). */
  datatype TempFile = TempFile(mimeType: string, name: string, uploadedAt: int)

  /** The `file` object of the success reply (its base64 text aside). */
  datatype FileInfo = FileInfo(id: string, name: string, kind: FileKind, size: int, url: string, mimeType: string, sessionId: FormEntry)

  datatype UploadReply =
    | Rejected(status: int, error: string)
    | Uploaded(file: FileInfo)
    | ServerError(details: string)

  /** `!entry` is false: a file, or a non-empty text. */
  predicate Present(entry: Option<FormEntry>) {
    entry.Some? && (entry.value.FilePart? || entry.value.text != "")
  }

  /** `file.type` is in the image list; a text entry has no `type`. */
  predicate IsImage(file: FormEntry) {
    file.FilePart? && file.mimeType in IMAGE_TYPES
  }

  predicate IsAudio(file: FormEntry) {
    file.FilePart? && file.mimeType in AUDIO_TYPES
  }

  /** `file.size > MAX_FILE_SIZE` is false; a text entry's `size` is `undefined`, which compares false. */
  predicate WithinSize(file: FormEntry) {
    file.TextPart? || file.size <= MAX_FILE_SIZE
  }

  /** The four checks of lines 30-62, in order, with their 400 errors. */
  function UploadChecks(file: Option<FormEntry>, sessionId: Option<FormEntry>): seq<Check<string>> {
    [ Check(Present(file), NO_FILE_ERROR),
      Check(Present(sessionId), NO_SESSION_ERROR),
      Check(file.Some? && (IsImage(file.value) || IsAudio(file.value)), TYPE_ERROR),
      Check(file.Some? && WithinSize(file.value), SIZE_ERROR) ]
  }

  /** The handler's guard chain: the error of the first check that fails. */
  function ValidateUpload(file: Option<FormEntry>, sessionId: Option<FormEntry>): (r: Option<string>)
    ensures r == FirstFailure(UploadChecks(file, sessionId))
    ensures r.None? ==> file.Some? && file.value.FilePart? && file.value.size <= MAX_FILE_SIZE
                        && (file.value.mimeType in IMAGE_TYPES || file.value.mimeType in AUDIO_TYPES)
                        && Present(sessionId)
  {
    var checks := UploadChecks(file, sessionId);
    if !Present(file) then
      FirstFailureAt(checks, 0);
      Some(NO_FILE_ERROR)
    else if !Present(sessionId) then
      FirstFailureAt(checks, 1);
      Some(NO_SESSION_ERROR)
    else if !IsImage(file.value) && !IsAudio(file.value) then
      FirstFailureAt(checks, 2);
      Some(TYPE_ERROR)
    else if file.value.size > MAX_FILE_SIZE then
      FirstFailureAt(checks, 3);
      Some(SIZE_ERROR)
    else
      AllPass(checks);
      None
  }

  /** `isImage ? 'image' : 'audio'` (line 100). */
  function KindOf(file: FormEntry): (k: FileKind)
    ensures k == Image ==> file.FilePart? && file.mimeType in IMAGE_TYPES
    ensures file.FilePart? && (IsImage(file) || IsAudio(file)) ==> (k == Audio <==> file.mimeType in AUDIO_TYPES)
  {
    if IsImage(file) then Image else Audio
  }

  /** `file.name.split('.').pop() || ''` (line 66). */
  function Extension(name: string): (e: string)
    ensures |e| <= |name| && '.' !in e && e == name[|name| - |e|..]
    ensures |e| < |name| ==> name[|name| - |e| - 1] == '.'
  {
    Text.LastField(name, '.')
  }

  /** The reply to an upload that `freshId` names, for a request that passed every check. */
  function Describe(file: FormEntry, sessionId: FormEntry, freshId: string): (info: FileInfo)
    requires file.FilePart?
    ensures info.id == freshId && info.url == URL_PREFIX + freshId
    ensures info.name == file.name && info.size == file.size && info.mimeType == file.mimeType && info.sessionId == sessionId
    ensures IsImage(file) || IsAudio(file) ==> (info.kind == Image <==> file.mimeType in IMAGE_TYPES)
  {
    FileInfo(freshId, file.name, KindOf(file), file.size, URL_PREFIX + freshId, file.mimeType, sessionId)
  }

  /** The reply of `POST`, with `freshId` the id `randomUUID` returns. */
  function Respond(req: UploadRequest, freshId: string): (reply: UploadReply)
    ensures req.Unreadable? ==> reply == ServerError(req.message)
    ensures req.Form? ==> (reply.Rejected? <==> ValidateUpload(req.file, req.sessionId).Some?)
    ensures reply.Rejected? ==> reply.status == 400 && Some(reply.error) == ValidateUpload(req.file, req.sessionId)
    ensures reply.Uploaded? ==> req.Form? && ValidateUpload(req.file, req.sessionId).None?
    ensures req.Form? && ValidateUpload(req.file, req.sessionId).None? ==>
              reply == Uploaded(Describe(req.file.value, req.sessionId.value, freshId))
  {
    match req
    case Unreadable(message) => ServerError(message)
    case Form(file, sessionId) =>
      match ValidateUpload(file, sessionId)
      case Some(error) => Rejected(400, error)
      case None => Uploaded(Describe(file.value, sessionId.value, freshId))
  }

  /** The store after the sweep of lines 89-94: entries uploaded strictly before `now - 1 h` are gone. */
  function Unexpired(files: map<string, TempFile>, now: int): (kept: map<string, TempFile>)
    ensures forall id :: id in files ==> (id in kept <==> files[id].uploadedAt >= now - FILE_TTL_MS)
    ensures forall id :: id in kept ==> id in files && kept[id] == files[id]
  {
    map id | id in files && files[id].uploadedAt >= now - FILE_TTL_MS :: files[id]
  }

  // -------------------------------------------------------------- properties

  /** No MIME type is both an image and an audio type, so the kind is image exactly for the image list. */
  lemma TypeListsDisjoint(file: FormEntry)
    ensures !(IsImage(file) && IsAudio(file))
    ensures file.FilePart? && (IsImage(file) || IsAudio(file)) ==> (KindOf(file) == Image <==> file.mimeType in IMAGE_TYPES)
    ensures KindOf(file) == Audio && file.FilePart? && (IsImage(file) || IsAudio(file)) ==> file.mimeType in AUDIO_TYPES
  {
  }

  /** The size limit is inclusive: exactly 10 MiB is accepted, one byte more is refused. */
  lemma SizeLimitInclusive(name: string, sessionId: string)
    requires sessionId != ""
    ensures ValidateUpload(Some(FilePart(name, "image/png", MAX_FILE_SIZE)), Some(TextPart(sessionId))).None?
    ensures ValidateUpload(Some(FilePart(name, "image/png", MAX_FILE_SIZE + 1)), Some(TextPart(sessionId))) == Some(SIZE_ERROR)
  {
    assert "image/png" == IMAGE_TYPES[1];
  }

  /** A missing file is reported before a missing session id. */
  lemma FileCheckedFirst(file: Option<FormEntry>)
    requires !Present(file)
    ensures ValidateUpload(file, None) == Some(NO_FILE_ERROR)
  {
  }

  /** A text field sent as `file` has no MIME type, so it is refused as a disallowed type. */
  lemma TextAsFileRefused(text: string, sessionId: string)
    requires text != "" && sessionId != ""
    ensures ValidateUpload(Some(TextPart(text)), Some(TextPart(sessionId))) == Some(TYPE_ERROR)
  {
  }

  /** The extension is the part after the last dot; a name with no dot is its own extension. */
  lemma ExtensionIsLastSegment(name: string)
    ensures '.' !in Extension(name)
    ensures '.' !in name ==> Extension(name) == name
    ensures '.' in name ==> exists i :: 0 <= i < |name| && name[i] == '.' && Extension(name) == name[i + 1..]
  {
    var e := Extension(name);
    if |e| < |name| {
      var i := |name| - |e| - 1;
      assert name[i] == '.' && e == name[i + 1..];
    } else {
      assert e == name;
    }
  }

  /** The reply of an accepted upload points at the stored id and echoes the file's name, size, type and session. */
  lemma AcceptedReplyEchoes(req: UploadRequest, freshId: string)
    requires Respond(req, freshId).Uploaded?
    ensures var info := Respond(req, freshId).file;
            && req.Form? && req.file.Some? && req.file.value.FilePart? && req.sessionId.Some?
            && info.id == freshId && info.url == URL_PREFIX + freshId
            && info.name == req.file.value.name && info.size == req.file.value.size
            && info.mimeType == req.file.value.mimeType && info.sessionId == req.sessionId.value
            && (info.kind == Image <==> info.mimeType in IMAGE_TYPES)
  {
  }

  /** The sweep keeps what was uploaded at `now`, the entry just stored included. */
  lemma NewEntrySurvivesSweep(files: map<string, TempFile>, id: string, entry: TempFile, now: int)
    requires entry.uploadedAt == now
    ensures id in Unexpired(files[id := entry], now) && Unexpired(files[id := entry], now)[id] == entry
  {
  }

  /** `globalThis.tempFiles`: the process-wide map of uploaded files. */
  class TempFileStore {
    var files: map<string, TempFile>

    constructor ()
      ensures files == map[]
    {
      files := map[];
    }

    /**
     * `POST` at instant `now`, with `freshId` the id `randomUUID` returns. A
     * refused or unreadable request leaves the store as it was.
     */
    method Post(req: UploadRequest, freshId: string, now: int) returns (reply: UploadReply)
      modifies this
      ensures reply == Respond(req, freshId)
      ensures !reply.Uploaded? ==> files == old(files)
      ensures reply.Uploaded? ==>
                files == Unexpired(old(files)[freshId := TempFile(reply.file.mimeType, reply.file.name, now)], now)
    {
      reply := Respond(req, freshId);
      if reply.Uploaded? {
        files := files[freshId := TempFile(reply.file.mimeType, reply.file.name, now)];
        Sweep(now);
      }
    }

    /** Lines 89-94: delete every entry uploaded strictly before `now - 1 h`. */
    method Sweep(now: int)
      modifies this
      ensures files == Unexpired(old(files), now)
    {
      var oneHourAgo := now - FILE_TTL_MS;
      var entries := files.Keys;
      while entries != {}
        invariant entries <= old(files).Keys
        invariant files.Keys == (set id | id in old(files) && (id in entries || old(files)[id].uploadedAt >= oneHourAgo))
        invariant forall id :: id in files ==> files[id] == old(files)[id]
        decreases entries
      {
        var id :| id in entries;
        if files[id].uploadedAt < oneHourAgo {
          files := files - {id};
        }
        entries := entries - {id};
      }
    }
  }
}
