/** File lookups (files.go): the lookup key of FilesView and the status mapping of both calls. */
module Files {
  import opened Wrappers
  import opened Decimal
  import opened Errors
  import opened Request

  /** `FileID`: any of the fields may be set; empty strings count as unset. */
  datatype FileID = FileID(id: int, md5: string, sha256: string)

  /** The `<format>/<key>` segment of the view URL. */
  datatype Lookup = Lookup(format: string, key: string)

  /** FilesView's key choice: MD5 if set, else SHA256 if set, else the decimal ID. */
  function LookupOf(f: FileID): (r: Lookup)
    ensures r.format in {"md5", "sha256", "id"}
    ensures r.format == "md5" <==> f.md5 != ""
    ensures r.format == "sha256" <==> f.md5 == "" && f.sha256 != ""
    ensures r.format == "md5" ==> r.key == f.md5
    ensures r.format == "sha256" ==> r.key == f.sha256
    ensures r.format == "id" ==> IsDecimal(r.key) && Parse(r.key) == f.id
  {
    var r :=
      if f.md5 != "" then Lookup("md5", f.md5)
      else if f.sha256 != "" then Lookup("sha256", f.sha256)
      else Lookup("id", Format(f.id));
    ParseFormat(f.id);
    r
  }

  /** `<BaseURL>/files/view/<format>/<key>`. */
  function ViewURL(c: Client, f: FileID): (url: string)
    ensures f.md5 != "" ==> url == c.baseURL + "/files/view/md5/" + f.md5
    ensures f.md5 == "" && f.sha256 != "" ==> url == c.baseURL + "/files/view/sha256/" + f.sha256
    ensures f.md5 == "" && f.sha256 == "" ==> url == c.baseURL + "/files/view/id/" + Format(f.id)
  {
    var l := LookupOf(f);
    c.baseURL + "/files/view/" + l.format + "/" + l.key
  }

  /** FilesView after the request: `decode` reads the `sample` member of the body (None when absent). */
  function FilesView<B, S>(x: Exchange<B>, decode: B -> Result<Option<S>, Error>): (r: Result<Option<S>, Error>)
    ensures r.Success? <==> x.Delivered? && x.response.statusCode == StatusOK && decode(x.response.body).Success?
    ensures x.Delivered? && x.response.statusCode == StatusOK ==> r == decode(x.response.body)
    ensures x.TransportError? ==> r == Failure(x.err)
  {
    match Classify(x)
    case Failed(e) => Failure(e)
    case Unauthorized(_) => Failure(NotAuthorized)
    case Passed(resp) =>
      if resp.statusCode == StatusNotFound then Failure(Errorf("file not found"))
      else if resp.statusCode == StatusBadRequest then Failure(Errorf("invalid lookup term"))
      else if resp.statusCode != StatusOK then Failure(BadResponseCode(resp.statusCode))
      else decode(resp.body)
  }

  /** FilesGet after the request: the body itself on 200. */
  function FilesGet<B>(x: Exchange<B>): (r: Result<B, Error>)
    ensures r.Success? <==> x.Delivered? && x.response.statusCode == StatusOK
    ensures r.Success? ==> r.value == x.response.body
  {
    match Classify(x)
    case Failed(e) => Failure(e)
    case Unauthorized(_) => Failure(NotAuthorized)
    case Passed(resp) =>
      if resp.statusCode == StatusNotFound then Failure(Errorf("file not found"))
      else if resp.statusCode != StatusOK then Failure(BadResponseCode(resp.statusCode))
      else Success(resp.body)
  }

  /** Both calls report failures alike, except that a 400 is an invalid lookup term for
      FilesView and an ordinary bad response code for FilesGet. */
  lemma FilesViewAndGetAgree<B, S>(x: Exchange<B>, decode: B -> Result<Option<S>, Error>)
    requires !(x.Delivered? && x.response.statusCode in {StatusOK, StatusBadRequest})
    ensures FilesView(x, decode).Failure? && FilesGet(x).Failure?
    ensures FilesView(x, decode).error == FilesGet(x).error
  {
  }

  lemma FilesViewAndGetDifferOn400<B, S>(body: B, decode: B -> Result<Option<S>, Error>)
    ensures FilesView(Delivered(Response(StatusBadRequest, body)), decode) == Failure(Errorf("invalid lookup term"))
    ensures FilesGet(Delivered(Response(StatusBadRequest, body))) == Failure(BadResponseCode(400))
  {
  }

  /** Status mapping of FilesView on a delivered response: 401 is the sentinel, 404 and 400 have
      their own messages, and any other non-200 code is reported in its text. */
  lemma FilesViewStatus<B, S>(code: int, body: B, decode: B -> Result<Option<S>, Error>)
    requires code != StatusOK
    ensures var r := FilesView(Delivered(Response(code, body)), decode);
      && r.Failure?
      && (code == StatusUnauthorized ==> r.error == NotAuthorized)
      && (code == StatusNotFound ==> Text(r.error) == "file not found")
      && (code == StatusBadRequest ==> Text(r.error) == "invalid lookup term")
      && (code !in {StatusUnauthorized, StatusNotFound, StatusBadRequest} ==>
            Text(r.error) == "bad response code: " + Format(code))
  {
  }
}
