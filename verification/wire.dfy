/** What the server reads from what the client sends: the fields a route
    finds in a JSON body or in a multipart form, and the file part of an
    upload. Each lemma follows one client request into the route that answers
    it. Path parameters are taken as already converted to the server's ids. */
module Wire {
  import opened Collections
  import opened Store
  import AuthRoutes
  import ResourceRoutes
  import Api
  import LoginPage
  import RegisterPage
  import ResourcesPage
  import Text

  /** `request.get_json()` for a JSON body, `request.form` for a multipart
      one: the form's text parts are the title and the tag. */
  function ReadFields(body: Api.Payload): (r: Fields)
    ensures body.Json? ==> r == body.fields
    ensures body.Form? ==> r.Keys == {"title", "tag"} && r["title"] == body.title && r["tag"] == body.tag
  {
    match body
    case Json(fields) => fields
    case Form(title, tag, _) => map["title" := title, "tag" := tag]
    case NoBody => map[]
  }

  /** The part type the browser's multipart encoding gives a file whose own
      type is unknown (the empty string). */
  const OctetStream := "application/octet-stream"

  /** The `Content-Type` of a file part: the file's own type, or
      `application/octet-stream` when that is empty. */
  function PartType(fileType: string): (r: string)
    ensures r != ""
    ensures fileType != "" ==> r == fileType
  {
    if fileType == "" then OctetStream else fileType
  }

  /** `request.files.get('file')`: the chosen file with its name and the type
      of its part. With no file chosen the form appends `null`, which arrives
      as a text part, so the server finds no file. */
  function ReadFile(body: Api.Payload): (r: Option<ResourceRoutes.FileUpload>)
    ensures r.Some? <==> body.Form? && body.file.Some?
    ensures r.Some? ==> r.value.filename == body.file.value.name
    ensures r.Some? ==> r.value.contentType == Some(PartType(body.file.value.contentType))
  {
    if body.Form? && body.file.Some? then
      Some(ResourceRoutes.FileUpload(body.file.value.name, Some(PartType(body.file.value.contentType))))
    else None
  }

  /** The login form's request reaches `/login` with both keys, so the route
      never fails on a missing key; it never changes the store; and in a valid
      store it answers 200 exactly when a user with the typed name has the
      typed password, with that user's token. */
  lemma LoginRequestIsAnswered(s: Store, st: LoginPage.State)
    ensures Api.AuthCall(Api.LoginEndpoint, LoginPage.Credentials(st)).path == "/login"
    ensures var r := AuthRoutes.Login(s, ReadFields(Api.AuthCall(Api.LoginEndpoint, LoginPage.Credentials(st)).body));
            && r.store == s && r.response.status != ServerError
            && (Valid(s) ==>
                  (r.response.status == Ok <==>
                     exists u :: u in s.users && u.username == st.username && CheckPassword(u.password, st.password)))
            && (Valid(s) ==>
                  forall u :: u in s.users && u.username == st.username && CheckPassword(u.password, st.password) ==>
                    r.response == Response(Ok, AccessToken(u.id)))
  {
  }

  /** The register form's request reaches `/register` with all three keys, so
      it is never refused for a missing field. In a valid store it creates the
      typed user exactly when neither the username nor the gmail address is
      taken and the password is not empty; the confirmation is never sent. */
  lemma RegisterRequestIsAnswered(s: Store, st: RegisterPage.State)
    ensures Api.AuthCall(Api.RegisterEndpoint, RegisterPage.Payload(st)).path == "/register"
    ensures var data := ReadFields(Api.AuthCall(Api.RegisterEndpoint, RegisterPage.Payload(st)).body);
            var r := AuthRoutes.Register(s, data);
            && "confirmPassword" !in data
            && r.response.body != Message(AuthRoutes.MissingFields)
            && (r.response.status == Created <==>
                  && !AuthRoutes.UsernameTaken(s, st.username) && !AuthRoutes.GmailTaken(s, st.gmail)
                  && st.password != "")
            && (r.response.status == Created ==>
                  var u := r.store.users[|s.users|];
                  u.username == st.username && u.gmail == st.gmail && CheckPassword(u.password, st.password))
  {
  }

  /** A link resource submitted in url mode carries all three keys the route
      reads, so once the access checks pass it is always created, holding the
      draft's title, url and tag. */
  lemma LinkRequestIsRead(s: Store, caller: Id, subtopicId: Id, st: ResourcesPage.State)
    requires st.mode == ResourcesPage.UrlMode
    ensures var r := ResourceRoutes.CreateResource(s, caller, subtopicId, ReadFields(ResourcesPage.CreateRequest(st).body));
            && (r.response.status == Created <==> ResourceRoutes.CheckAccess(s, caller, subtopicId).None?)
            && (r.response.status == Created ==>
                  var x := r.store.resources[|s.resources|];
                  && x.title == Some(st.list.draft.title) && x.url == st.list.draft.url
                  && x.tag == Some(st.list.draft.tag) && x.upload.None?)
  {
  }

  /** A file submitted in file mode is read with the title and tag the form
      carries: it is created exactly when the access checks pass, a named file
      was chosen and the host took it, and it then holds the draft's title and
      tag and the file's MIME type, `application/octet-stream` when the file
      has none. */
  lemma UploadRequestIsRead(s: Store, caller: Id, subtopicId: Id, st: ResourcesPage.State,
                            cloud: ResourceRoutes.CloudResult, secureName: string -> string)
    requires st.mode == ResourcesPage.FileMode
    ensures var body := ResourcesPage.CreateRequest(st).body;
            var r := ResourceRoutes.UploadResource(s, caller, subtopicId, ReadFields(body), ReadFile(body), cloud, secureName);
            && (r.response.status == Created <==>
                  && ResourceRoutes.CheckAccess(s, caller, subtopicId).None?
                  && st.list.draft.file.Some? && st.list.draft.file.value.name != "" && cloud.Uploaded?)
            && (r.response.status == Created ==>
                  var x := r.store.resources[|s.resources|];
                  && x.title == Some(st.list.draft.title) && x.tag == Some(st.list.draft.tag)
                  && x.upload.Some? && x.upload.value.fileType == Some(PartType(st.list.draft.file.value.contentType)))
  {
  }

  /** A file of unknown type is stored as `application/octet-stream`, which
      the resources page offers as a download, never as an image or a PDF. */
  lemma UntypedFileIsDownloaded(x: ResourcesPage.Resource)
    requires x.fileType == Some(PartType(""))
    ensures ResourcesPage.Label(x) == ResourcesPage.DownloadFile
  {
    assert 'g' !in OctetStream;
    assert 'f' !in OctetStream;
    Text.MissingCharNotContained(OctetStream, "image", 'g');
    Text.MissingCharNotContained(OctetStream, "pdf", 'f');
  }
}
