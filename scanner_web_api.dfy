/**
 * The HTTP front end of the scanner service: CORS headers, the preflight
 * short-cut, routing on the lower-cased path, and the status and body each
 * endpoint answers with. The listener, the streams and JSON encoding are
 * outside the model; a reply is its status, headers, content type and body.
 */
module ScannerWebApi {
  import opened Wrappers
  import Text
  import Paths
  import Dib
  import ScannerService

  datatype Header = Header(name: string, value: string)

  /** The three CORS headers every request is answered with. */
  const Cors := [
    Header("Access-Control-Allow-Origin", "*"),
    Header("Access-Control-Allow-Methods", "GET, POST, OPTIONS"),
    Header("Access-Control-Allow-Headers", "Content-Type")]

  const JsonType := "application/json"
  const JpegType := "image/jpeg"
  const ScannerIdRequired := "ScannerId is required"

  /** The bodies the endpoints send, by the fields of their JSON objects. */
  datatype Body =
    | NoBody
    | Error(error: string)
    | Scanners(scanners: seq<ScannerService.ScannerInfo>)
    | Failure(failure: Option<string>)
    | Scanned(imagePath: Option<string>, fileName: Option<string>, imageUrl: string)
    | Image(bytes: seq<Dib.byte>)

  datatype Reply = Reply(status: int, headers: seq<Header>, contentType: Option<string>, body: Body)

  /** A JSON reply; every reply carries the CORS headers. */
  function JsonReply(status: int, body: Body): Reply
  {
    Reply(status, Cors, Some(JsonType), body)
  }

  /** The body of `POST /api/scan` as the JSON deserialiser reads it. */
  datatype ScanRequest = ScanRequest(scannerId: Option<string>)
  datatype Deserialized = Invalid(message: string) | Null | Parsed(request: ScanRequest)

  datatype Request = Request(httpMethod: string, absolutePath: string, scanBody: Deserialized)

  /**
   * What the endpoints consult: the scanner list `GetScanners` returns (or
   * the text of the exception it throws), the outcome `ScanAsync` gives for a
   * scanner id, and the files of the output directory with what reading each
   * of them gives.
   */
  datatype Services = Services(
    scanners: Result<seq<ScannerService.ScannerInfo>, string>,
    scan: string -> Result<ScannerService.ScanResult, string>,
    files: map<string, Result<seq<Dib.byte>, string>>)

  // ---------------------------------------------------------------------------
  // Routing

  datatype Endpoint = Preflight | ListScanners | StartScan | GetImage | NotFound

  /** The method is matched exactly, the path after lower-casing; OPTIONS goes first, for any path. */
  function Route(httpMethod: string, absolutePath: string): (e: Endpoint)
    ensures e == Preflight <==> httpMethod == "OPTIONS"
    ensures e == ListScanners <==> httpMethod == "GET" && Text.Lower(absolutePath) == "/api/scanners"
    ensures e == StartScan <==> httpMethod == "POST" && Text.Lower(absolutePath) == "/api/scan"
    ensures e == GetImage <==>
      httpMethod == "GET" && Text.Lower(absolutePath) != "/api/scanners"
      && Text.StartsWith(Text.Lower(absolutePath), "/api/images/")
  {
    if httpMethod == "OPTIONS" then Preflight
    else
      var path := Text.Lower(absolutePath);
      if path == "/api/scanners" && httpMethod == "GET" then ListScanners
      else if path == "/api/scan" && httpMethod == "POST" then StartScan
      else if Text.StartsWith(path, "/api/images/") && httpMethod == "GET" then GetImage
      else NotFound
  }

  /** Routing does not see the case of the path. */
  lemma RouteIgnoresCase(httpMethod: string, absolutePath: string)
    ensures Route(httpMethod, Text.Lower(absolutePath)) == Route(httpMethod, absolutePath)
  {
    Text.LowerIdempotent(absolutePath);
  }

  // ---------------------------------------------------------------------------
  // The endpoints

  /** `GET /api/scanners`: the list, or 500 with `success = false` and the exception's text. */
  function ListResponse(listed: Result<seq<ScannerService.ScannerInfo>, string>): (r: Reply)
    ensures r.status == 200 <==> listed.Ok?
    ensures listed.Ok? ==> r == JsonReply(200, Scanners(listed.value))
    ensures listed.Err? ==> r == JsonReply(500, Failure(Some(listed.error)))
  {
    match listed
    case Ok(scanners) => JsonReply(200, Scanners(scanners))
    case Err(m) => JsonReply(500, Failure(Some(m)))
  }

  /** Where the saved image can be fetched; a missing file name leaves the URL ending in the route prefix. */
  function ImageUrl(baseUrl: string, fileName: Option<string>): string
  {
    baseUrl + "api/images/" + (if fileName.Some? then fileName.value else "")
  }

  /**
   * `POST /api/scan`: a body that does not parse is a 500 with the parser's
   * message; a missing or empty scanner id is a 400; otherwise the scan's
   * result decides between 200 with the image's name and URL and 500 with
   * the error text.
   */
  function ScanResponse(baseUrl: string, svc: Services, body: Deserialized): (r: Reply)
    ensures body.Invalid? ==> r.status == 500 && r.body == Failure(Some(body.message))
    ensures (body.Null? || (body.Parsed? && (body.request.scannerId.None? || body.request.scannerId.value == "")))
            ==> r == JsonReply(400, Failure(Some(ScannerIdRequired)))
    ensures r.status == 200 ==>
      && body.Parsed? && body.request.scannerId.Some?
      && var outcome := svc.scan(body.request.scannerId.value);
      && outcome.Ok? && outcome.value.success
      && r.body == Scanned(outcome.value.imagePath, outcome.value.fileName, ImageUrl(baseUrl, outcome.value.fileName))
    ensures body.Parsed? && body.request.scannerId.Some? && body.request.scannerId.value != "" ==>
      var outcome := svc.scan(body.request.scannerId.value);
      && (outcome.Err? ==> r == JsonReply(500, Failure(Some(outcome.error))))
      && (outcome.Ok? && !outcome.value.success ==> r == JsonReply(500, Failure(outcome.value.errorMessage)))
    ensures r.status in {200, 400, 500}
  {
    match body
    case Invalid(message) => JsonReply(500, Failure(Some(message)))
    case Null => JsonReply(400, Failure(Some(ScannerIdRequired)))
    case Parsed(request) =>
      if request.scannerId.None? || request.scannerId.value == "" then
        JsonReply(400, Failure(Some(ScannerIdRequired)))
      else
        match svc.scan(request.scannerId.value)
        case Err(m) => JsonReply(500, Failure(Some(m)))
        case Ok(result) =>
          if result.success then
            JsonReply(200, Scanned(result.imagePath, result.fileName, ImageUrl(baseUrl, result.fileName)))
          else JsonReply(500, Failure(result.errorMessage))
  }

  /** The file a request path names: the last segment of the path, in the output directory. */
  function ImageFile(outputPath: string, absolutePath: string): string
  {
    Paths.Combine(outputPath, Paths.GetFileName(absolutePath))
  }

  /**
   * `GET /api/images/{name}`: the image bytes as JPEG, 404 when the file is
   * missing, 500 when reading it fails. A path with characters the path
   * functions refuse throws out of the handler (`Err`).
   */
  function ImageResponse(outputPath: string, files: map<string, Result<seq<Dib.byte>, string>>, absolutePath: string)
    : (r: Result<Reply, string>)
    ensures r.Err? <==> Paths.HasIllegalChars(absolutePath)
    ensures r.Ok? ==>
      && (ImageFile(outputPath, absolutePath) !in files <==> r.value == JsonReply(404, Error("Image not found")))
      && (r.value.status == 200 <==>
            ImageFile(outputPath, absolutePath) in files && files[ImageFile(outputPath, absolutePath)].Ok?)
    ensures r.Ok? && ImageFile(outputPath, absolutePath) in files ==>
      match files[ImageFile(outputPath, absolutePath)]
      case Ok(bytes) => r.value == Reply(200, Cors, Some(JpegType), Image(bytes))
      case Err(m) => r.value == JsonReply(500, Error(m))
  {
    if Paths.HasIllegalChars(absolutePath) then Err(Paths.IllegalCharactersMessage)
    else
      var filePath := ImageFile(outputPath, absolutePath);
      if filePath !in files then Ok(JsonReply(404, Error("Image not found")))
      else match files[filePath]
        case Err(m) => Ok(JsonReply(500, Error(m)))
        case Ok(bytes) => Ok(Reply(200, Cors, Some(JpegType), Image(bytes)))
  }

  /**
   * The reply to one request: CORS headers always; a preflight answered
   * at once; the endpoint the route picks; 404 for anything else; and 500
   * with the message of an exception that escapes an endpoint.
   */
  function Respond(baseUrl: string, outputPath: string, svc: Services, req: Request): (r: Reply)
    ensures r.headers == Cors
    ensures req.httpMethod == "OPTIONS" ==> r == Reply(200, Cors, None, NoBody)
    ensures Route(req.httpMethod, req.absolutePath) == NotFound ==>
      r == JsonReply(404, Error("Endpoint not found"))
    ensures Route(req.httpMethod, req.absolutePath) == ListScanners ==> r == ListResponse(svc.scanners)
    ensures Route(req.httpMethod, req.absolutePath) == StartScan ==> r == ScanResponse(baseUrl, svc, req.scanBody)
    ensures Route(req.httpMethod, req.absolutePath) == GetImage ==>
      var image := ImageResponse(outputPath, svc.files, req.absolutePath);
      r == (if image.Ok? then image.value else JsonReply(500, Error(image.error)))
    ensures r.status in {200, 400, 404, 500}
  {
    match Route(req.httpMethod, req.absolutePath)
    case Preflight => Reply(200, Cors, None, NoBody)
    case ListScanners => ListResponse(svc.scanners)
    case StartScan => ScanResponse(baseUrl, svc, req.scanBody)
    case GetImage =>
      (match ImageResponse(outputPath, svc.files, req.absolutePath)
       case Ok(reply) => reply
       case Err(m) => JsonReply(500, Error(m)))
    case NotFound => JsonReply(404, Error("Endpoint not found"))
  }

  // ---------------------------------------------------------------------------
  // What the endpoints guarantee

  /** A request without a usable scanner id is answered without consulting the scanner at all. */
  lemma MissingScannerIdSkipsScan(baseUrl: string, svc1: Services, svc2: Services, body: Deserialized)
    requires body.Null? || (body.Parsed? && (body.request.scannerId.None? || body.request.scannerId.value == ""))
    ensures ScanResponse(baseUrl, svc1, body) == ScanResponse(baseUrl, svc2, body)
    ensures ScanResponse(baseUrl, svc1, body).status == 400
  {
  }

  /**
   * Whatever the request path, the image looked up lies directly in the
   * output directory: the directory, a separator, and a name with no
   * separator in it.
   */
  lemma ImageStaysInOutputDirectory(outputPath: string, absolutePath: string)
    requires outputPath != []
    ensures var name := Paths.GetFileName(absolutePath);
      && (forall j :: 0 <= j < |name| ==> !Paths.IsSeparator(name[j]))
      && (name != [] ==>
            ImageFile(outputPath, absolutePath)
            == (if Paths.IsSeparator(outputPath[|outputPath| - 1]) then outputPath + name
                else outputPath + "\\" + name))
  {
    Paths.FileNameStaysInDirectory(outputPath, absolutePath);
  }

  /**
   * End to end: when the scan endpoint consults the scan transaction, it
   * answers 200 exactly when the transaction succeeded, and then the image
   * URL it returns ends in a path whose `GET` is routed to the image
   * endpoint and looks up exactly the file the transaction saved.
   */
  lemma ScanUrlFetchesSavedImage(
    baseUrl: string, outputPath: string, svc: Services, dev: ScannerService.Device, scannerId: string)
    requires outputPath != [] && scannerId != []
    requires forall id :: svc.scan(id) == ScannerService.Reported(ScannerService.ScanSpec(dev, id, outputPath))
    ensures var t := ScannerService.ScanSpec(dev, scannerId, outputPath);
      var r := ScanResponse(baseUrl, svc, Parsed(ScanRequest(Some(scannerId))));
      && (r.status == 200 <==> t.outcome.Ok?)
      && (r.status == 200 ==>
            && t.outcome.value.fileName.Some?
            && var name := t.outcome.value.fileName.value;
            && r.body.imageUrl == baseUrl + "api/images/" + name
            && Route("GET", "/api/images/" + name) == GetImage
            && !Paths.HasIllegalChars("/api/images/" + name)
            && Some(ImageFile(outputPath, "/api/images/" + name)) == t.outcome.value.imagePath)
  {
    var t := ScannerService.ScanSpec(dev, scannerId, outputPath);
    ScannerService.ScanSuccessIsConsistent(dev, scannerId, outputPath);
    assert svc.scan(scannerId) == ScannerService.Reported(t);
    ScanReplyOfResult(baseUrl, svc, scannerId);
    if t.outcome.Ok? {
      var name := t.outcome.value.fileName.value;
      var stamp: ScannerService.Clock :| name == ScannerService.ScanFileName(stamp);
      ScannerService.ScanFileNameIsPlain(stamp);
      ImagePathOfPlainName(name);
    }
  }

  /** With a scanner id, the scan endpoint answers 200 exactly for a successful scan, with the URL of its image. */
  lemma ScanReplyOfResult(baseUrl: string, svc: Services, scannerId: string)
    requires scannerId != []
    ensures var r := ScanResponse(baseUrl, svc, Parsed(ScanRequest(Some(scannerId))));
      var outcome := svc.scan(scannerId);
      && (r.status == 200 <==> outcome.Ok? && outcome.value.success)
      && (r.status == 200 ==> r.body.imageUrl == ImageUrl(baseUrl, outcome.value.fileName))
  {
  }

  /** The image path of a name made of plain characters is routed to the image endpoint and names that file. */
  lemma ImagePathOfPlainName(name: string)
    requires forall j :: 0 <= j < |name| ==> ScannerService.IsPlainNameChar(name[j])
    ensures Route("GET", "/api/images/" + name) == GetImage
    ensures !Paths.HasIllegalChars("/api/images/" + name)
    ensures Paths.GetFileName("/api/images/" + name) == name
  {
    var path := "/api/images/" + name;
    forall i | 0 <= i < |path|
      ensures !Paths.IsIllegalPathChar(path[i]) && !('A' <= path[i] <= 'Z')
    {
      if i >= 12 {
        assert path[i] == name[i - 12];
      } else {
        assert path[i] == "/api/images/"[i];
      }
    }
    Text.LowerOfLowerCase(path);
    assert path[..12] == "/api/images/";
    Paths.FileNameAfterSeparator("/api/images/", name);
  }

  // ---------------------------------------------------------------------------
  // The server and the response it fills in

  /** The response object a handler fills in step by step. */
  class Response {
    var statusCode: int
    var headers: seq<Header>
    var contentType: Option<string>
    var body: Body
    var closed: bool

    /** A new response: status 200, nothing else set. */
    constructor ()
      ensures statusCode == 200 && headers == [] && contentType == None && body == NoBody && !closed
    {
      statusCode := 200;
      headers := [];
      contentType := None;
      body := NoBody;
      closed := false;
    }

    /** What the client receives. */
    function Sent(): Reply
      reads this
    {
      Reply(statusCode, headers, contentType, body)
    }

    method AddHeader(h: Header)
      modifies this
      ensures headers == old(headers) + [h]
      ensures statusCode == old(statusCode) && contentType == old(contentType)
      ensures body == old(body) && closed == old(closed)
    {
      headers := headers + [h];
    }

    /** Writes a JSON body and closes the response. */
    method SendJson(b: Body)
      modifies this
      ensures contentType == Some(JsonType) && body == b && closed
      ensures statusCode == old(statusCode) && headers == old(headers)
    {
      contentType := Some(JsonType);
      body := b;
      closed := true;
    }

    /** Writes the bytes of an image as JPEG and closes the response. */
    method SendImage(bytes: seq<Dib.byte>)
      modifies this
      ensures contentType == Some(JpegType) && body == Image(bytes) && closed
      ensures statusCode == old(statusCode) && headers == old(headers)
    {
      contentType := Some(JpegType);
      body := Image(bytes);
      closed := true;
    }

    method Close()
      modifies this
      ensures closed
      ensures statusCode == old(statusCode) && headers == old(headers)
      ensures contentType == old(contentType) && body == old(body)
    {
      closed := true;
    }
  }

  /** The output directory: the one given, or `Scans` under the user's documents folder. */
  function DefaultOutputPath(outputPath: Option<string>, myDocuments: string): (r: string)
    ensures outputPath.Some? ==> r == outputPath.value
    ensures outputPath.None? && myDocuments != [] ==>
      r == myDocuments + (if Paths.IsSeparator(myDocuments[|myDocuments| - 1]) then "" else "\\") + "Scans"
  {
    if outputPath.Some? then outputPath.value
    else
      assert !Paths.IsPathRooted("Scans");
      Paths.Combine(myDocuments, "Scans")
  }

  class Server {
    const baseUrl: string
    const outputPath: string

    constructor (baseUrl: string, outputPath: Option<string>, myDocuments: string)
      ensures this.baseUrl == baseUrl
      ensures this.outputPath == DefaultOutputPath(outputPath, myDocuments)
    {
      this.baseUrl := baseUrl;
      this.outputPath := DefaultOutputPath(outputPath, myDocuments);
    }

    /** Handles one request, filling in `rsp` and closing it. */
    method HandleRequest(req: Request, svc: Services, rsp: Response)
      requires rsp.statusCode == 200 && rsp.headers == [] && rsp.contentType == None && rsp.body == NoBody
      requires !rsp.closed
      modifies rsp
      ensures rsp.Sent() == Respond(baseUrl, outputPath, svc, req)
      ensures rsp.closed
    {
      rsp.AddHeader(Cors[0]);
      rsp.AddHeader(Cors[1]);
      rsp.AddHeader(Cors[2]);
      if req.httpMethod == "OPTIONS" {
        rsp.statusCode := 200;
        rsp.Close();
        return;
      }
      var path := Text.Lower(req.absolutePath);
      if path == "/api/scanners" && req.httpMethod == "GET" {
        HandleGetScanners(svc, rsp);
      } else if path == "/api/scan" && req.httpMethod == "POST" {
        HandleScan(req.scanBody, svc, rsp);
      } else if Text.StartsWith(path, "/api/images/") && req.httpMethod == "GET" {
        var escaped := HandleGetImage(req.absolutePath, svc, rsp);
        if escaped.Some? {
          rsp.statusCode := 500;
          rsp.SendJson(Error(escaped.value));
        }
      } else {
        rsp.statusCode := 404;
        rsp.SendJson(Error("Endpoint not found"));
      }
    }

    method HandleGetScanners(svc: Services, rsp: Response)
      requires rsp.statusCode == 200 && rsp.headers == Cors
      modifies rsp
      ensures rsp.Sent() == ListResponse(svc.scanners) && rsp.closed
    {
      if svc.scanners.Ok? {
        rsp.SendJson(Scanners(svc.scanners.value));
      } else {
        rsp.statusCode := 500;
        rsp.SendJson(Failure(Some(svc.scanners.error)));
      }
    }

    method HandleScan(body: Deserialized, svc: Services, rsp: Response)
      requires rsp.statusCode == 200 && rsp.headers == Cors
      modifies rsp
      ensures rsp.Sent() == ScanResponse(baseUrl, svc, body) && rsp.closed
    {
      if body.Invalid? {
        rsp.statusCode := 500;
        rsp.SendJson(Failure(Some(body.message)));
        return;
      }
      if body.Null? || body.request.scannerId.None? || body.request.scannerId.value == "" {
        rsp.statusCode := 400;
        rsp.SendJson(Failure(Some(ScannerIdRequired)));
        return;
      }
      var outcome := svc.scan(body.request.scannerId.value);
      if outcome.Err? {
        rsp.statusCode := 500;
        rsp.SendJson(Failure(Some(outcome.error)));
      } else if outcome.value.success {
        var result := outcome.value;
        rsp.SendJson(Scanned(result.imagePath, result.fileName, ImageUrl(baseUrl, result.fileName)));
      } else {
        rsp.statusCode := 500;
        rsp.SendJson(Failure(outcome.value.errorMessage));
      }
    }

    /** Serves an image; returns the message of an exception that escapes, leaving `rsp` open. */
    method HandleGetImage(absolutePath: string, svc: Services, rsp: Response) returns (escaped: Option<string>)
      requires rsp.statusCode == 200 && rsp.headers == Cors
      modifies rsp
      ensures ImageResponse(outputPath, svc.files, absolutePath).Err? ==>
        && escaped == Some(ImageResponse(outputPath, svc.files, absolutePath).error)
        && rsp.statusCode == 200 && rsp.headers == Cors
      ensures ImageResponse(outputPath, svc.files, absolutePath).Ok? ==>
        escaped.None? && rsp.Sent() == ImageResponse(outputPath, svc.files, absolutePath).value && rsp.closed
    {
      if Paths.HasIllegalChars(absolutePath) {
        return Some(Paths.IllegalCharactersMessage);
      }
      var filePath := ImageFile(outputPath, absolutePath);
      escaped := None;
      if filePath !in svc.files {
        rsp.statusCode := 404;
        rsp.SendJson(Error("Image not found"));
        return;
      }
      match svc.files[filePath] {
        case Err(m) =>
          rsp.statusCode := 500;
          rsp.SendJson(Error(m));
        case Ok(bytes) =>
          rsp.SendImage(bytes);
      }
    }
  }
}
