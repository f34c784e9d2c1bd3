/** The journal record lifecycle of backend/src/services/journal-service.js:
    create, read, patch and delete a journal over the `journals` and `users`
    collections and the bucket, the two AI-backed operations (`chat`,
    `analyze`), and the month queries behind the journal list and the mood
    calendar.

    Each request reads the clock once (`now`); `uuidv4()` is the parameter
    `journalId`; every upload is described by the `Date.now()` it reads and
    the stream error it meets, if any; the AI services are oracles. */
module JournalService {
  import opened Wrappers
  import opened JsonValues
  import opened JsString
  import opened MultipartParser
  import opened GoogleStorage
  import opened StorageHelper
  import opened DocumentStore
  import opened AiHelper
  import opened Calendar

  const NotFound := ResponseError(404, "Jurnal tidak ditemukan")
  /** The 404 `chat` and `analyze` give both for a missing journal and for someone else's. */
  const HiddenNotFound := ResponseError(404, "Jurnal tidak ditemukan.")
  const TitleRequired := ResponseError(400, "Judul jurnal wajib diisi.")
  const Deleted := "Jurnal dan file terkait berhasil dihapus"

  /** `Date.now()` read by one `uploadToGCS` call, and the write-stream error it meets. */
  datatype UploadAttempt = UploadAttempt(clock: nat, streamError: Option<string>)

  function VideoFolder(uid: string): string { "journals/" + uid + "/videos" }
  function PhotoFolder(uid: string): string { "journals/" + uid + "/photos" }

  // ----- The image path -----

  /** `[^\/]+\/(.+)` matched at the start of `t`: the captured group. */
  function MatchAfterHost(t: string): (capture: Option<string>)
    ensures capture.Some? ==> capture.value != [] && NoLineTerminator(capture.value)
  {
    match Find(t, '/', 0)
    case None => None
    case Some(k) =>
      if k == 0 then None
      else
        var rest := t[k + 1..];
        var n := LineRun(rest);
        if n == 0 then None else Some(rest[..n])
  }

  /** `url.match(/https:\/\/storage\.googleapis\.com\/[^\/]+\/(.+)/)[1]`: the
      group captured at the leftmost position where the pattern matches. */
  function ObjectPathMatch(url: string): (capture: Option<string>)
    ensures capture.Some? ==> capture.value != []
    decreases |url|
  {
    if StartsWith(url, Host) && MatchAfterHost(url[|Host|..]).Some? then MatchAfterHost(url[|Host|..])
    else if url == [] then None
    else ObjectPathMatch(url[1..])
  }

  /** The `image_path` stored next to a photo URL: the object path the URL
      names, or `folder/originalname` when the pattern does not match. */
  function ImagePath(photoUrl: string, folder: string, originalname: string): string {
    match ObjectPathMatch(photoUrl)
    case Some(path) => path
    case None => folder + "/" + originalname
  }

  /** A bucket name the `[^\/]+` of the pattern matches as a whole. */
  predicate PlainBucketName(name: string) {
    name != [] && forall i :: 0 <= i < |name| ==> name[i] != '/'
  }

  /** The pattern recovers the key of a public URL whose key is one line. */
  lemma ObjectPathOfPublicUrl(bucketName: string, key: string)
    requires PlainBucketName(bucketName) && key != [] && NoLineTerminator(key)
    ensures ObjectPathMatch(PublicUrl(bucketName, key)) == Some(key)
  {
    var url := PublicUrl(bucketName, key);
    var t := bucketName + "/" + key;
    assert url == Host + t && url[..|Host|] == Host && url[|Host|..] == t;
    assert t[|bucketName|] == '/';
    assert forall j :: 0 <= j < |bucketName| ==> t[j] == bucketName[j];
    assert Find(t, '/', 0) == Some(|bucketName|);
    assert t[|bucketName| + 1..] == key;
    assert key[..LineRun(key)] == key;
  }

  /** The key an upload into a user's photo folder writes is one line when the uid is. */
  lemma PhotoKeyIsOneLine(uid: string, clock: nat, originalname: string)
    requires NoLineTerminator(uid)
    ensures var key := Destination(PhotoFolder(uid), clock, originalname);
            key != [] && key[0] == 'j' && NoLineTerminator(key)
  {
    var folder := PhotoFolder(uid);
    var key := Destination(folder, clock, originalname);
    DestinationShape(folder, clock, originalname);
    NoSpaceHasNoLineTerminator(key[|folder| + 1..]);
    assert key[..|folder| + 1] == folder + "/";
    forall i | 0 <= i < |key|
      ensures !IsLineTerminator(key[i])
    {
      if i < |folder| + 1 {
        assert key[i] == (folder + "/")[i];
        assert forall j :: 0 <= j < |uid| ==> folder[9 + j] == uid[j];
      } else {
        assert key[i] == key[|folder| + 1..][i - |folder| - 1];
      }
    }
  }

  /** The stored image path renders back, through `getGcsUrl`, to the photo URL
      the upload returned. */
  lemma ImagePathRendersPhotoUrl(bucketName: string, uid: string, clock: nat, originalname: string)
    requires PlainBucketName(bucketName) && NoLineTerminator(uid)
    ensures var key := Destination(PhotoFolder(uid), clock, originalname);
            var url := PublicUrl(bucketName, key);
            ImagePath(url, PhotoFolder(uid), originalname) == key &&
            GcsUrl(bucketName, Some(ImagePath(url, PhotoFolder(uid), originalname))) == Some(url)
  {
    var key := Destination(PhotoFolder(uid), clock, originalname);
    PhotoKeyIsOneLine(uid, clock, originalname);
    ObjectPathOfPublicUrl(bucketName, key);
    GcsUrlOfKey(bucketName, key);
  }

  // ----- Access -----

  /** The journal `id` when it exists and belongs to `uid`; `notFound` when it
      does not exist, `foreign` when it belongs to someone else. */
  function Owned(journals: map<string, Journal>, uid: string, id: string, notFound: Error, foreign: Error): (r: Result<Journal>)
    ensures r.Ok? <==> id in journals && journals[id].user_id == uid
    ensures r.Ok? ==> r.value == journals[id]
    ensures id !in journals ==> r == Err(notFound)
    ensures id in journals && journals[id].user_id != uid ==> r == Err(foreign)
  {
    if id !in journals then Err(notFound)
    else if journals[id].user_id != uid then Err(foreign)
    else Ok(journals[id])
  }

  /** `getDetailJournal(user, journalId)`. */
  function GetDetailJournal(journals: map<string, Journal>, uid: string, id: string): (r: Result<Journal>)
    ensures id !in journals ==> r == Err(NotFound)
    ensures id in journals && journals[id].user_id != uid ==>
              r == Err(ResponseError(403, "Anda tidak memiliki akses ke jurnal ini"))
    ensures r.Ok? <==> id in journals && journals[id].user_id == uid
    ensures r.Ok? ==> r.value == journals[id]
  {
    Owned(journals, uid, id, NotFound, ResponseError(403, "Anda tidak memiliki akses ke jurnal ini"))
  }

  // ----- Create -----

  const NoAnalysis := Analysis(Null, Null, Null)

  /** `${title} . ${note || ""}` */
  function FullText(title: string, note: Option<string>): string {
    title + " . " + note.GetOr("")
  }

  /** The emotion, expression and confidence a new journal gets: the sentiment
      of its full text, or three nulls when there is none. */
  function AnalysisOf(gemini: Gemini, parse: string -> Option<Analysis>, title: string, note: Option<string>): (a: Analysis)
    ensures AnalyzeSentiment(gemini, FullText(title, note), parse).None? ==> a == NoAnalysis
    ensures title != "" && AnalyzeSentiment(gemini, FullText(title, note), parse).Some? ==>
              a == AnalyzeSentiment(gemini, FullText(title, note), parse).value
  {
    var fullText := FullText(title, note);
    JsLengthAppend(title, " . " + note.GetOr(""));
    JsLengthAppend(" . ", note.GetOr(""));
    if JsLength(fullText) > 3 then AnalyzeSentiment(gemini, fullText, parse).GetOr(NoAnalysis)
    else NoAnalysis
  }

  /** The title/note body of a create request; `None` is an absent property. */
  datatype CreateRequest = CreateRequest(title: Option<string>, note: Option<string>)

  /** The URL `uploadToGCS` resolves with for `file` uploaded into `folder`, when there is a file. */
  function UploadedUrl(bucketName: string, folder: string, upload: UploadAttempt, file: Option<FileRecord>): Option<string> {
    if file.None? then None
    else Some(PublicUrl(bucketName, Destination(folder, upload.clock, file.value.originalname)))
  }

  /** The bucket after the uploads of a new journal: the video, then the
      photo, each stored under its destination key when it was given. */
  function Uploads(objects: map<string, Blob>, uid: string,
                   videoFile: Option<FileRecord>, videoUpload: UploadAttempt,
                   photoFile: Option<FileRecord>, photoUpload: UploadAttempt): map<string, Blob>
  {
    var withVideo :=
      if videoFile.None? then objects
      else objects[Destination(VideoFolder(uid), videoUpload.clock, videoFile.value.originalname) :=
                   Blob(videoFile.value.buffer, videoFile.value.mimetype)];
    if photoFile.None? then withVideo
    else withVideo[Destination(PhotoFolder(uid), photoUpload.clock, photoFile.value.originalname) :=
                   Blob(photoFile.value.buffer, photoFile.value.mimetype)]
  }

  /** A video key and a photo key of the same user never coincide. */
  lemma VideoKeyIsNotPhotoKey(uid: string, vclock: nat, vname: string, pclock: nat, pname: string)
    ensures Destination(VideoFolder(uid), vclock, vname) != Destination(PhotoFolder(uid), pclock, pname)
  {
    var vk := Destination(VideoFolder(uid), vclock, vname);
    var pk := Destination(PhotoFolder(uid), pclock, pname);
    var at := |"journals/" + uid + "/"|;
    assert vk[at] == 'v' by { assert vk == "journals/" + uid + "/" + "videos" + vk[|VideoFolder(uid)|..]; }
    assert pk[at] == 'p' by { assert pk == "journals/" + uid + "/" + "photos" + pk[|PhotoFolder(uid)|..]; }
  }

  /** The URLs a new journal stores name, for `deleteFromGCS`, exactly the
      objects that hold its files; every other object is left as it was. */
  lemma {:induction false} UploadedUrlsNameTheirObjects(objects: map<string, Blob>, bucketName: string, uid: string,
                                                        videoFile: Option<FileRecord>, videoUpload: UploadAttempt,
                                                        photoFile: Option<FileRecord>, photoUpload: UploadAttempt)
    ensures var after := Uploads(objects, uid, videoFile, videoUpload, photoFile, photoUpload);
            var videoUrl := UploadedUrl(bucketName, VideoFolder(uid), videoUpload, videoFile);
            var photoUrl := UploadedUrl(bucketName, PhotoFolder(uid), photoUpload, photoFile);
            (videoFile.Some? ==>
               KeyOfUrl(bucketName, videoUrl.value).Some? && KeyOfUrl(bucketName, videoUrl.value).value in after &&
               after[KeyOfUrl(bucketName, videoUrl.value).value] == Blob(videoFile.value.buffer, videoFile.value.mimetype)) &&
            (photoFile.Some? ==>
               KeyOfUrl(bucketName, photoUrl.value).Some? && KeyOfUrl(bucketName, photoUrl.value).value in after &&
               after[KeyOfUrl(bucketName, photoUrl.value).value] == Blob(photoFile.value.buffer, photoFile.value.mimetype)) &&
            (forall key :: key in objects &&
                           (videoFile.None? || Some(key) != KeyOfUrl(bucketName, videoUrl.value)) &&
                           (photoFile.None? || Some(key) != KeyOfUrl(bucketName, photoUrl.value)) ==>
                             key in after && after[key] == objects[key])
  {
    if videoFile.Some? {
      UrlRoundTrip(bucketName, Destination(VideoFolder(uid), videoUpload.clock, videoFile.value.originalname));
    }
    if photoFile.Some? {
      UrlRoundTrip(bucketName, Destination(PhotoFolder(uid), photoUpload.clock, photoFile.value.originalname));
    }
    if videoFile.Some? && photoFile.Some? {
      VideoKeyIsNotPhotoKey(uid, videoUpload.clock, videoFile.value.originalname,
                            photoUpload.clock, photoFile.value.originalname);
    }
  }

  /** `createJournal(user, request, videoFile, photoFile)`. */
  method CreateJournal(db: Database, bucket: Bucket, uid: string, request: CreateRequest,
                       videoFile: Option<FileRecord>, photoFile: Option<FileRecord>,
                       journalId: string, now: nat, videoUpload: UploadAttempt, photoUpload: UploadAttempt,
                       gemini: Gemini, parse: string -> Option<Analysis>)
    returns (r: Result<Journal>)
    modifies db, bucket
    // A missing or empty title is refused before anything is uploaded or written.
    ensures !Truthy(request.title) ==>
              r == Err(TitleRequired) && unchanged(db) && bucket.objects == old(bucket.objects)
    // A failed video upload writes nothing.
    ensures Truthy(request.title) && videoFile.Some? && videoUpload.streamError.Some? ==>
              r == Err(ResponseError(500, "Gagal upload video: " + ("Gagal upload ke storage: " + videoUpload.streamError.value))) &&
              unchanged(db) && bucket.objects == old(bucket.objects)
    // A failed photo upload writes no document, and the video uploaded before it stays.
    ensures Truthy(request.title) && (videoFile.None? || videoUpload.streamError.None?) &&
            photoFile.Some? && photoUpload.streamError.Some? ==>
              r == Err(ResponseError(500, "Gagal upload foto: " + ("Gagal upload ke storage: " + photoUpload.streamError.value))) &&
              unchanged(db) &&
              bucket.objects == Uploads(old(bucket.objects), uid, videoFile, videoUpload, None, photoUpload)
    // The uploads succeed whenever there is no stream error, and the new
    // journal is then written; its author's `last_entry` is stamped after it.
    // Both hold also when the author's document is missing and the stamp fails.
    ensures Truthy(request.title) && (videoFile.None? || videoUpload.streamError.None?) &&
            (photoFile.None? || photoUpload.streamError.None?) ==>
              bucket.objects == Uploads(old(bucket.objects), uid, videoFile, videoUpload, photoFile, photoUpload) &&
              journalId in db.journals && db.journals == old(db.journals)[journalId := db.journals[journalId]] &&
              (r.Ok? <==> uid in old(db.users)) &&
              (r.Ok? ==> r.value == db.journals[journalId] &&
                         db.users == old(db.users)[uid := old(db.users)[uid].(last_entry := Some(now))]) &&
              (r.Err? ==> r.error.Unexpected? && db.users == old(db.users))
    // The journal written: the request's title and note, the uploads' URLs,
    // the sentiment of its text, and nulls for what later operations fill in.
    ensures Truthy(request.title) && (videoFile.None? || videoUpload.streamError.None?) &&
            (photoFile.None? || photoUpload.streamError.None?) ==>
              var j := db.journals[journalId];
              j.id == journalId && j.user_id == uid && j.title == request.title.value &&
              j.note == request.note.GetOr("") && j.created_at == now && j.updated_at == now &&
              j.video_url == UploadedUrl(bucket.name, VideoFolder(uid), videoUpload, videoFile) &&
              j.photo_url == UploadedUrl(bucket.name, PhotoFolder(uid), photoUpload, photoFile) &&
              j.image_path == (if photoFile.None? then None
                               else Some(ImagePath(j.photo_url.value, PhotoFolder(uid), photoFile.value.originalname))) &&
              j.similarity == Null && j.tags == Null && j.illustrator == Null && j.illustrator_urls == Null &&
              j.chatbot_suggestion == Null && j.chatbot_highlight == Null && j.chatbot_strategy == Null &&
              Analysis(j.emotion, j.expression, j.confidence) == AnalysisOf(gemini, parse, j.title, request.note)
    // The stored image path renders back to the stored photo URL.
    ensures r.Ok? && PlainBucketName(bucket.name) && NoLineTerminator(uid) ==>
              GcsUrl(bucket.name, r.value.image_path) == r.value.photo_url
  {
    if !Truthy(request.title) {
      return Err(TitleRequired);
    }
    var videoUrl: Option<string> := None;
    var photoUrl: Option<string> := None;
    var imagePath: Option<string> := None;

    if videoFile.Some? {
      var uploaded := bucket.Upload(videoFile, VideoFolder(uid), videoUpload.clock, videoUpload.streamError);
      if uploaded.Err? {
        return Err(ResponseError(500, "Gagal upload video: " + Message(uploaded.error)));
      }
      videoUrl := Some(uploaded.value);
    }

    if photoFile.Some? {
      var folder := PhotoFolder(uid);
      var uploaded := bucket.Upload(photoFile, folder, photoUpload.clock, photoUpload.streamError);
      if uploaded.Err? {
        return Err(ResponseError(500, "Gagal upload foto: " + Message(uploaded.error)));
      }
      // A public URL is never empty, so the source's `if (photoUrl)` always holds.
      photoUrl := Some(uploaded.value);
      imagePath := Some(ImagePath(uploaded.value, folder, photoFile.value.originalname));
      if PlainBucketName(bucket.name) && NoLineTerminator(uid) {
        ImagePathRendersPhotoUrl(bucket.name, uid, photoUpload.clock, photoFile.value.originalname);
      }
    }

    var analysis := AnalysisOf(gemini, parse, request.title.value, request.note);
    var journal := Journal(
      journalId, uid, request.title.value, request.note.GetOr(""),
      videoUrl, photoUrl, imagePath,
      analysis.emotion, analysis.expression, analysis.confidence,
      Null, Null, Null, Null, Null, Null, Null,
      now, now);
    db.journals := db.journals[journalId := journal];

    if uid !in db.users {
      // Firestore's `update` of a missing document fails with NOT_FOUND.
      return Err(Unexpected("NOT_FOUND"));
    }
    db.users := db.users[uid := db.users[uid].(last_entry := Some(now))];
    return Ok(journal);
  }

  /** A created journal's analysis is three nulls whenever the sentiment analysis gives nothing. */
  lemma NoSentimentNoAnalysis(gemini: Gemini, parse: string -> Option<Analysis>, title: string, note: Option<string>)
    requires gemini.NoModel? || forall reply :: parse(reply).None?
    ensures AnalysisOf(gemini, parse, title, note) == NoAnalysis
  {
    var text := FullText(title, note);
    if gemini.Model? && gemini.generate(SentimentPrompt(text)).Returns? {
      assert parse(JsonText(gemini.generate(SentimentPrompt(text)).value)).None?;
    }
  }

  // ----- Update -----

  /** The title/note body of an update request; `None` is an absent property. */
  datatype UpdateRequest = UpdateRequest(title: Option<string>, note: Option<string>)

  /** The journal after the patch: title and note where given, a new photo
      where one was uploaded, and always a new `updated_at`. */
  function Patched(current: Journal, request: UpdateRequest, now: nat, photo: Option<(string, string)>): (j: Journal)
    ensures j.id == current.id && j.user_id == current.user_id && j.created_at == current.created_at
    ensures j.video_url == current.video_url && j.emotion == current.emotion
    ensures j.similarity == current.similarity && j.illustrator == current.illustrator
    ensures j.illustrator_urls == current.illustrator_urls
    ensures j.expression == current.expression && j.confidence == current.confidence
    ensures j.tags == current.tags && j.chatbot_highlight == current.chatbot_highlight
    ensures j.chatbot_suggestion == current.chatbot_suggestion && j.chatbot_strategy == current.chatbot_strategy
    ensures j.updated_at == now
    ensures j.title == (if request.title.Some? then request.title.value else current.title)
    ensures j.note == (if request.note.Some? then request.note.value else current.note)
    ensures photo.None? ==> j.photo_url == current.photo_url && j.image_path == current.image_path
    ensures photo.Some? ==> j.photo_url == Some(photo.value.0) && j.image_path == Some(photo.value.1)
  {
    var j := current.(updated_at := now,
                      title := request.title.GetOr(current.title),
                      note := request.note.GetOr(current.note));
    match photo
    case None => j
    case Some((url, path)) => j.(photo_url := Some(url), image_path := Some(path))
  }

  /** `updateJournal(user, request, photoFile, journalId)`; `deleteFails` is
      the swallowed failure of removing the old photo. */
  method UpdateJournal(db: Database, bucket: Bucket, uid: string, request: UpdateRequest,
                       photoFile: Option<FileRecord>, journalId: string, now: nat,
                       deleteFails: bool, upload: UploadAttempt)
    returns (r: Result<Journal>)
    modifies db, bucket
    ensures var access := Owned(old(db.journals), uid, journalId, NotFound,
                                ResponseError(403, "Anda tidak memiliki akses untuk mengedit jurnal ini"));
            access.Err? ==> r == access && unchanged(db) && bucket.objects == old(bucket.objects)
    ensures unchanged(db`users, db`notifications, db`resetTokens)
    ensures journalId in old(db.journals) && old(db.journals)[journalId].user_id == uid ==>
              var current := old(db.journals)[journalId];
              // The old photo is removed before the new one is uploaded ...
              var cleared := if photoFile.None? then old(bucket.objects)
                             else AfterDelete(old(bucket.objects), bucket.name, current.photo_url, deleteFails);
              (photoFile.Some? && upload.streamError.Some? ==>
                 // ... so a failed upload leaves the journal without its old photo.
                 r == Err(ResponseError(500, "Gagal update foto: " + ("Gagal upload ke storage: " + upload.streamError.value))) &&
                 db.journals == old(db.journals) && bucket.objects == cleared) &&
              (photoFile.None? ==>
                 r == Ok(Patched(current, request, now, None)) &&
                 db.journals == old(db.journals)[journalId := r.value] && bucket.objects == cleared) &&
              (photoFile.Some? && upload.streamError.None? ==>
                 var key := Destination(PhotoFolder(uid), upload.clock, photoFile.value.originalname);
                 var url := PublicUrl(bucket.name, key);
                 r == Ok(Patched(current, request, now, Some((url, ImagePath(url, PhotoFolder(uid), photoFile.value.originalname))))) &&
                 db.journals == old(db.journals)[journalId := r.value] &&
                 bucket.objects == cleared[key := Blob(photoFile.value.buffer, photoFile.value.mimetype)])
  {
    var access := Owned(db.journals, uid, journalId, NotFound,
                        ResponseError(403, "Anda tidak memiliki akses untuk mengedit jurnal ini"));
    if access.Err? {
      return access;
    }
    var current := access.value;
    var photo: Option<(string, string)> := None;
    if photoFile.Some? {
      if Truthy(current.photo_url) {
        bucket.Delete(current.photo_url, deleteFails);
      }
      var folder := PhotoFolder(uid);
      var uploaded := bucket.Upload(photoFile, folder, upload.clock, upload.streamError);
      if uploaded.Err? {
        return Err(ResponseError(500, "Gagal update foto: " + Message(uploaded.error)));
      }
      photo := Some((uploaded.value, ImagePath(uploaded.value, folder, photoFile.value.originalname)));
    }
    var updated := Patched(current, request, now, photo);
    db.journals := db.journals[journalId := updated];
    return Ok(updated);
  }

  // ----- Delete -----

  /** `deleteJournal(user, journalId)`; the two flags are the swallowed
      failures of removing the video and the photo. */
  method DeleteJournal(db: Database, bucket: Bucket, uid: string, journalId: string,
                       videoDeleteFails: bool, photoDeleteFails: bool)
    returns (r: Result<string>)
    modifies db, bucket
    ensures var access := Owned(old(db.journals), uid, journalId, NotFound,
                                ResponseError(403, "Anda tidak memiliki akses untuk menghapus jurnal ini"));
            (access.Err? ==> r == Err(access.error) && unchanged(db) && bucket.objects == old(bucket.objects)) &&
            (access.Ok? ==>
               r == Ok(Deleted) &&
               db.journals == old(db.journals) - {journalId} &&
               bucket.objects == AfterDelete(AfterDelete(old(bucket.objects), bucket.name, access.value.video_url, videoDeleteFails),
                                             bucket.name, access.value.photo_url, photoDeleteFails))
    ensures unchanged(db`users, db`notifications, db`resetTokens)
  {
    var access := Owned(db.journals, uid, journalId, NotFound,
                        ResponseError(403, "Anda tidak memiliki akses untuk menghapus jurnal ini"));
    if access.Err? {
      return Err(access.error);
    }
    var journal := access.value;
    if Truthy(journal.video_url) {
      bucket.Delete(journal.video_url, videoDeleteFails);
    }
    if Truthy(journal.photo_url) {
      bucket.Delete(journal.photo_url, photoDeleteFails);
    }
    db.journals := db.journals - {journalId};
    return Ok(Deleted);
  }

  /** Deleting a journal whose two files were uploaded to the bucket removes
      exactly those two objects when neither removal fails. */
  lemma DeleteRemovesUploads(objects: map<string, Blob>, bucketName: string, videoKey: string, photoKey: string)
    ensures AfterDelete(AfterDelete(objects, bucketName, Some(PublicUrl(bucketName, videoKey)), false),
                        bucketName, Some(PublicUrl(bucketName, photoKey)), false)
            == objects - {videoKey, photoKey}
  {
    UrlRoundTrip(bucketName, videoKey);
    UrlRoundTrip(bucketName, photoKey);
    assert |PublicUrl(bucketName, videoKey)| > 0 && |PublicUrl(bucketName, photoKey)| > 0;
  }

  // ----- Chat and analyze -----

  datatype ChatReply = ChatReply(journal_id: string, question: Option<string>, reply: string)

  /** `chat(user, journalId, request)`; `answer` stands for `chatWithJournalContext`. */
  function Chat(journals: map<string, Journal>, uid: string, id: string, message: Option<string>,
                answer: (Journal, Option<string>) -> Outcome<string>): (r: Result<ChatReply>)
    // Missing and foreign journals are indistinguishable.
    ensures r == Err(HiddenNotFound) <==> id !in journals || journals[id].user_id != uid
    ensures r.Ok? ==> r.value.journal_id == id && r.value.question == message &&
                      answer(journals[id], message) == Returns(r.value.reply)
    // An owned journal gets the answer, and a thrown answer is passed on.
    ensures id in journals && journals[id].user_id == uid ==>
              match answer(journals[id], message)
              case Returns(reply) => r == Ok(ChatReply(id, message, reply))
              case Throws(reason) => r == Err(Unexpected(reason))
  {
    match Owned(journals, uid, id, HiddenNotFound, HiddenNotFound)
    case Err(e) => Err(e)
    case Ok(journal) =>
      match answer(journal, message)
      case Throws(reason) => Err(Unexpected(reason))
      case Returns(reply) => Ok(ChatReply(id, message, reply))
  }

  /** What `generateJournalInsights` returns when it returns an object. */
  datatype Insights = Insights(tags: JsonValue, chatbot_highlight: JsonValue,
                               chatbot_suggestion: JsonValue, chatbot_strategy: JsonValue)

  /** `analyze(user, journalId)`; `insights` stands for `generateJournalInsights`,
      `None` being a falsy result. */
  method AnalyzeJournal(db: Database, uid: string, id: string, now: nat,
                        insights: Journal -> Outcome<Option<Insights>>)
    returns (r: Result<Journal>)
    modifies db
    ensures (r == Err(HiddenNotFound)) <==> id !in old(db.journals) || old(db.journals)[id].user_id != uid
    ensures unchanged(db`users, db`notifications, db`resetTokens)
    ensures r.Err? ==> db.journals == old(db.journals)
    ensures id in old(db.journals) && old(db.journals)[id].user_id == uid ==>
              var current := old(db.journals)[id];
              match insights(current)
              case Throws(reason) => r == Err(Unexpected(reason))
              case Returns(None) => r == Err(ResponseError(500, "Layanan AI sedang sibuk, gagal mendapatkan insight."))
              case Returns(Some(i)) =>
                r == Ok(current.(tags := i.tags, chatbot_highlight := i.chatbot_highlight,
                                 chatbot_suggestion := i.chatbot_suggestion, chatbot_strategy := i.chatbot_strategy,
                                 updated_at := now)) &&
                db.journals == old(db.journals)[id := r.value]
  {
    var access := Owned(db.journals, uid, id, HiddenNotFound, HiddenNotFound);
    if access.Err? {
      return access;
    }
    var current := access.value;
    var answer := insights(current);
    if answer.Throws? {
      return Err(Unexpected(answer.reason));
    }
    if answer.value.None? {
      return Err(ResponseError(500, "Layanan AI sedang sibuk, gagal mendapatkan insight."));
    }
    var i := answer.value.value;
    var updated := current.(tags := i.tags, chatbot_highlight := i.chatbot_highlight,
                            chatbot_suggestion := i.chatbot_suggestion, chatbot_strategy := i.chatbot_strategy,
                            updated_at := now);
    db.journals := db.journals[id := updated];
    return Ok(updated);
  }

  // ----- The month queries -----

  /** The month and year of a list or calendar query, each the `parseInt` of
      a truthy query string; `None` when the parameter is absent or empty. */
  datatype PeriodQuery = PeriodQuery(month: Option<int>, year: Option<int>)

  /** The ids of `uid`'s journals created within [start, end]. */
  function InPeriod(journals: map<string, Journal>, uid: string, start: int, end: int): (ids: set<string>)
    ensures forall id :: id in ids <==>
              id in journals && journals[id].user_id == uid && start <= journals[id].created_at <= end
  {
    set id | id in journals && journals[id].user_id == uid && start <= journals[id].created_at <= end
  }

  /** The query both month views run: `uid`'s journals created within the
      month, as ids ordered by `created_at`, newest first. */
  method QueryMonth(journals: map<string, Journal>, uid: string, year: int, month: int) returns (ids: seq<string>)
    ensures Distinct(ids) && |ids| == |InPeriod(journals, uid, PeriodStart(year, month), PeriodEnd(year, month))|
    ensures forall id :: id in ids <==> id in InPeriod(journals, uid, PeriodStart(year, month), PeriodEnd(year, month))
    ensures forall i, j :: 0 <= i < j < |ids| ==> journals[ids[i]].created_at >= journals[ids[j]].created_at
  {
    var matching := InPeriod(journals, uid, PeriodStart(year, month), PeriodEnd(year, month));
    ids := NewestFirst(matching, id => if id in journals then journals[id].created_at else 0);
  }

  /** The documents `ids` name, in that order. */
  function Docs(journals: map<string, Journal>, ids: seq<string>): seq<Journal>
    requires forall i :: 0 <= i < |ids| ==> ids[i] in journals
  {
    seq(|ids|, i requires 0 <= i < |ids| => journals[ids[i]])
  }

  datatype ListMeta = ListMeta(filter_month: int, filter_year: int, days_in_month: int,
                               period_start: int, period_end: int)
  datatype JournalList = JournalList(meta: ListMeta, data: seq<Journal>)

  /** `listJournal(user, request)`; `now` is the clock read for the default
      month and year. `ids` are the documents of the snapshot, in order. */
  method ListJournal(db: Database, uid: string, request: PeriodQuery, now: int)
    returns (ids: seq<string>, r: JournalList)
    ensures var month := request.month.GetOr(UtcYearMonth(now).1);
            var year := request.year.GetOr(UtcYearMonth(now).0);
            var start, end := PeriodStart(year, month), PeriodEnd(year, month);
            r.meta == ListMeta(month, year, DaysInMonth(year, month), start, end) &&
            Distinct(ids) && (forall id :: id in ids <==> id in InPeriod(db.journals, uid, start, end)) &&
            (forall i :: 0 <= i < |ids| ==> ids[i] in db.journals) && r.data == Docs(db.journals, ids) &&
            forall i :: 0 <= i < |r.data| ==> r.data[i].user_id == uid && start <= r.data[i].created_at <= end
    ensures forall i, j :: 0 <= i < j < |r.data| ==> r.data[i].created_at >= r.data[j].created_at
  {
    var month := request.month.GetOr(UtcYearMonth(now).1);
    var year := request.year.GetOr(UtcYearMonth(now).0);
    ids := QueryMonth(db.journals, uid, year, month);
    var data: seq<Journal> := [];
    for i := 0 to |ids|
      invariant |data| == i
      invariant forall k :: 0 <= k < i ==> data[k] == db.journals[ids[k]]
    {
      data := data + [db.journals[ids[i]]];
    }
    var meta := ListMeta(month, year, DaysInMonth(year, month), PeriodStart(year, month), PeriodEnd(year, month));
    r := JournalList(meta, data);
  }

  /** The emotion and expression the calendar shows for a day. */
  datatype Mood = Mood(emotion: JsonValue, expression: JsonValue)
  datatype MoodCalendar = MoodCalendar(year: int, month: int, moods: map<int, Mood>)

  function DayOf(j: Journal): int {
    UtcDate(j.created_at)
  }

  /** The moods of `js` in order, keyed by the UTC day of the month, where a
      day already present keeps its mood. */
  function FirstPerDay(js: seq<Journal>): map<int, Mood> {
    if js == [] then map[]
    else
      var moods := FirstPerDay(js[..|js| - 1]);
      var last := js[|js| - 1];
      if DayOf(last) in moods then moods else moods[DayOf(last) := Mood(last.emotion, last.expression)]
  }

  /** The index of the first journal of `js` on day `d`. */
  function FirstOn(js: seq<Journal>, d: int): (k: Option<nat>)
    ensures k.Some? ==> k.value < |js| && DayOf(js[k.value]) == d &&
                        forall i :: 0 <= i < k.value ==> DayOf(js[i]) != d
    ensures k.None? ==> forall i :: 0 <= i < |js| ==> DayOf(js[i]) != d
  {
    if js == [] then None
    else
      var prefix := js[..|js| - 1];
      assert forall i :: 0 <= i < |prefix| ==> prefix[i] == js[i];
      match FirstOn(prefix, d)
      case Some(k) => Some(k)
      case None => if DayOf(js[|js| - 1]) == d then Some(|js| - 1) else None
  }

  /** The calendar holds exactly the days some journal falls on, each with the
      mood of the first journal on that day. */
  lemma {:induction false} FirstPerDayIsFirst(js: seq<Journal>, d: int)
    ensures d in FirstPerDay(js) <==> FirstOn(js, d).Some?
    ensures d in FirstPerDay(js) ==>
              var j := js[FirstOn(js, d).value];
              FirstPerDay(js)[d] == Mood(j.emotion, j.expression)
  {
    if js != [] {
      var prefix := js[..|js| - 1];
      FirstPerDayIsFirst(prefix, d);
      if FirstOn(prefix, d).Some? {
        assert js[FirstOn(prefix, d).value] == prefix[FirstOn(prefix, d).value];
      }
    }
  }

  lemma FirstPerDayStep(js: seq<Journal>, i: nat)
    requires i < |js|
    ensures var moods := FirstPerDay(js[..i]);
            FirstPerDay(js[..i + 1]) ==
              if DayOf(js[i]) in moods then moods else moods[DayOf(js[i]) := Mood(js[i].emotion, js[i].expression)]
  {
    assert js[..i + 1][..i] == js[..i];
  }

  /** Over a newest-first sequence, the mood of a day is that of its latest journal. */
  lemma LatestMoodPerDay(js: seq<Journal>, d: int)
    requires forall i, j :: 0 <= i < j < |js| ==> js[i].created_at >= js[j].created_at
    requires d in FirstPerDay(js)
    ensures exists k :: 0 <= k < |js| && DayOf(js[k]) == d &&
              FirstPerDay(js)[d] == Mood(js[k].emotion, js[k].expression) &&
              forall i :: 0 <= i < |js| && DayOf(js[i]) == d ==> js[i].created_at <= js[k].created_at
  {
    FirstPerDayIsFirst(js, d);
    var k := FirstOn(js, d).value;
    forall i | 0 <= i < |js| && DayOf(js[i]) == d
      ensures js[i].created_at <= js[k].created_at
    {
      assert k <= i;
      if k < i {
        assert js[k].created_at >= js[i].created_at;
      }
    }
  }

  /** `getMoodCalendar(user, request)`; `now` is the clock read for the
      default month and year. `ids` are the documents of the snapshot, in order. */
  method GetMoodCalendar(db: Database, uid: string, request: PeriodQuery, now: int)
    returns (ids: seq<string>, r: MoodCalendar)
    ensures var year := request.year.GetOr(UtcYearMonth(now).0);
            var month := request.month.GetOr(UtcYearMonth(now).1);
            r.year == year && r.month == month &&
            Distinct(ids) &&
            (forall id :: id in ids <==> id in InPeriod(db.journals, uid, PeriodStart(year, month), PeriodEnd(year, month))) &&
            (forall i :: 0 <= i < |ids| ==> ids[i] in db.journals) &&
            (forall i, j :: 0 <= i < j < |ids| ==> db.journals[ids[i]].created_at >= db.journals[ids[j]].created_at) &&
            r.moods == FirstPerDay(Docs(db.journals, ids))
  {
    var year := request.year.GetOr(UtcYearMonth(now).0);
    var month := request.month.GetOr(UtcYearMonth(now).1);
    ids := QueryMonth(db.journals, uid, year, month);
    var docs := Docs(db.journals, ids);
    var moods: map<int, Mood> := map[];
    for i := 0 to |docs|
      invariant moods == FirstPerDay(docs[..i])
    {
      var data := docs[i];
      var day := DayOf(data);
      FirstPerDayStep(docs, i);
      if day !in moods {
        moods := moods[day := Mood(data.emotion, data.expression)];
      }
    }
    assert docs[..|docs|] == docs;
    r := MoodCalendar(year, month, moods);
  }
}
