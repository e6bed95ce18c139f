/**
 * EmilContainerData: the file name of an uploaded multipart part (from its
 * Content-Disposition header), the upload endpoint's checks on the form, the first-part
 * reader, and the container import task's source check, request validation and the
 * content entries it adds to the shared image description. The image builder, the blob
 * store, URL parsing and the import folder are foreign: their answers are parameters.
 */
module ContainerData {
  import opened JavaLang

  const NULL_DEREFERENCE: string := "java.lang.NullPointerException"
  const ARRAY_INDEX_OUT_OF_BOUNDS: string := "java.lang.ArrayIndexOutOfBoundsException"
  const UNKNOWN_FILE_NAME: string := "unknown"
  /** The folder that file names of import requests are resolved in. */
  const IMPORT_FOLDER: string := "/eaas/import/"

  // ---------------------------------------------------------------------------
  // getFileName

  predicate IsFilenameSegment(segment: string) {
    StartsWith(Trim(segment), "filename")
  }

  /** The position of the first segment at or after `from` whose trimmed text starts with "filename", or |segments|. */
  function FirstFilenameSegment(segments: seq<string>, from: nat): (k: nat)
    requires from <= |segments|
    ensures from <= k <= |segments|
    ensures k < |segments| ==> IsFilenameSegment(segments[k])
    ensures forall j :: from <= j < k ==> !IsFilenameSegment(segments[j])
    decreases |segments| - from
  {
    if from == |segments| then from
    else if IsFilenameSegment(segments[from]) then from
    else FirstFilenameSegment(segments, from + 1)
  }

  /**
   * getFileName: the header's `;`-separated segments are scanned for the first whose
   * trimmed text starts with "filename"; its text after the first `=` (up to the next
   * `=`), trimmed and without `"` characters, is the name. No such segment gives
   * "unknown"; a missing header, or a matching segment with nothing after `=`, raises.
   */
  function GetFileName(contentDisposition: Option<string>): (r: Result<string>)
    ensures contentDisposition.None? ==> r == Err(NULL_DEREFERENCE)
    ensures contentDisposition.Some? ==>
      var segments := JavaSplit(contentDisposition.value, ';');
      var k := FirstFilenameSegment(segments, 0);
      && (k == |segments| <==> r == Ok(UNKNOWN_FILE_NAME) && forall j :: 0 <= j < |segments| ==> !IsFilenameSegment(segments[j]))
      && (k < |segments| && '=' !in segments[k] ==> r == Err(ARRAY_INDEX_OUT_OF_BOUNDS))
    ensures r.Ok? ==> '"' !in r.value
  {
    if contentDisposition.None? then Err(NULL_DEREFERENCE)
    else
      var segments := JavaSplit(contentDisposition.value, ';');
      var k := FirstFilenameSegment(segments, 0);
      if k == |segments| then Ok(UNKNOWN_FILE_NAME)
      else
        var name := JavaSplit(segments[k], '=');
        if |name| < 2 then Err(ARRAY_INDEX_OUT_OF_BOUNDS)
        else
          Ok(RemoveChar(Trim(name[1]), '"'))
  }

  /** The header a browser sends for a form field `file` carrying a file named `name`. */
  function FileContentDisposition(name: string): string {
    "form-data; name=\"file\"; filename=\"" + name + "\""
  }

  lemma TrimUnpadded(s: string)
    requires s != [] && !IsTrimmed(s[0]) && !IsTrimmed(s[|s| - 1])
    ensures Trim(s) == s
  {
  }

  lemma TrimOneSpace(s: string)
    requires |s| >= 2 && s[0] == ' ' && !IsTrimmed(s[1]) && !IsTrimmed(s[|s| - 1])
    ensures Trim(s) == s[1..]
  {
    assert TrimStart(s[1..]) == s[1..];
  }

  /** A segment (after at most one leading space) that differs from "filename" at position k is not a filename segment. */
  lemma NotFilenameSegment(s: string, pad: nat, k: nat)
    requires pad <= 1 && pad < |s| && !IsTrimmed(s[|s| - 1])
    requires pad == 1 ==> s[0] == ' '
    requires !IsTrimmed(s[pad])
    requires k < 8 && pad + k < |s| && s[pad + k] != "filename"[k]
    ensures !IsFilenameSegment(s)
  {
    if pad == 0 {
      TrimUnpadded(s);
    } else {
      TrimOneSpace(s);
    }
  }

  /** A segment " filename..." (one leading space) is a filename segment. */
  lemma SpacedFilenameSegment(s: string)
    requires |s| >= 9 && s[0] == ' ' && s[1..9] == "filename" && !IsTrimmed(s[|s| - 1])
    ensures IsFilenameSegment(s)
  {
    TrimOneSpace(s);
    assert s[1..][..8] == s[1..9];
  }

  /** The value of a `filename="..."` segment, as getFileName reads it. */
  lemma FilenameSegmentValue(value: string)
    requires '=' !in value && '"' !in value
    ensures var segment := " filename" + ['='] + ("\"" + value + "\"");
      && IsFilenameSegment(segment)
      && JavaSplit(segment, '=') == [" filename", "\"" + value + "\""]
      && RemoveChar(Trim("\"" + value + "\""), '"') == value
  {
    var quoted := "\"" + value + "\"";
    var segment := " filename" + ['='] + quoted;
    assert segment[1..9] == "filename";
    SpacedFilenameSegment(segment);
    JavaSplitTwo(" filename", quoted, '=');
    TrimUnpadded(quoted);
    RemoveCharAppend("\"" + value, "\"", '"');
    RemoveCharAppend("\"", value, '"');
    RemoveCharAbsent(value, '"');
  }

  /** The three segments of a browser's file-upload header. */
  lemma FileHeaderSegments(name: string)
    requires ';' !in name
    ensures JavaSplit(FileContentDisposition(name), ';')
         == ["form-data", " name=\"file\"", " filename" + ['='] + ("\"" + name + "\"")]
  {
    var third := " filename" + ['='] + ("\"" + name + "\"");
    assert FileContentDisposition(name) == "form-data" + [';'] + " name=\"file\"" + [';'] + third;
    JavaSplitThree("form-data", " name=\"file\"", third, ';');
  }

  /** Neither "form-data" nor ` name="file"` is a filename segment. */
  lemma FormDataSegmentsAreNotFilenames()
    ensures !IsFilenameSegment("form-data")
    ensures !IsFilenameSegment(" name=\"file\"")
  {
    NotFilenameSegment("form-data", 0, 1);
    NotFilenameSegment(" name=\"file\"", 1, 0);
  }

  /**
   * Round trip: a file name without `;`, `=` and `"` survives being put in a
   * Content-Disposition header and read back with getFileName.
   */
  lemma FileNameRoundTrip(name: string)
    requires ';' !in name && '=' !in name && '"' !in name
    ensures GetFileName(Some(FileContentDisposition(name))) == Ok(name)
  {
    var segments := ["form-data", " name=\"file\"", " filename" + ['='] + ("\"" + name + "\"")];
    FileHeaderSegments(name);
    FormDataSegmentsAreNotFilenames();
    FilenameSegmentValue(name);
    assert FirstFilenameSegment(segments, 0) == 2;
  }

  /** A header without a filename segment names the file "unknown". */
  lemma NoFilenameIsUnknown()
    ensures GetFileName(Some("form-data" + [';'] + " name=\"file\"")) == Ok(UNKNOWN_FILE_NAME)
  {
    JavaSplitTwo("form-data", " name=\"file\"", ';');
    FormDataSegmentsAreNotFilenames();
    assert FirstFilenameSegment(["form-data", " name=\"file\""], 0) == 2;
  }

  /** The filename segment of a value with an `=` in it splits into three, the name after the quote second. */
  lemma CutSegment(name: string, rest: string)
    requires '=' !in name && '"' !in name && '=' !in rest
    ensures var third := " filename" + ['='] + ("\"" + (name + ['='] + rest) + "\"");
      && IsFilenameSegment(third)
      && JavaSplit(third, '=') == [" filename", "\"" + name, rest + "\""]
  {
    var third := " filename" + ['='] + ("\"" + (name + ['='] + rest) + "\"");
    var front, back := "\"" + name, rest + "\"";
    assert '=' !in front && '=' !in back && '=' !in " filename";
    assert third == " filename" + ['='] + front + ['='] + back;
    assert third[1..9] == "filename";
    SpacedFilenameSegment(third);
    JavaSplitThree(" filename", front, back, '=');
  }

  /** An opening quote followed by a name that does not end in white space trims and unquotes to the name. */
  lemma UnquoteOpening(name: string)
    requires '"' !in name && (name == [] || !IsTrimmed(name[|name| - 1]))
    ensures RemoveChar(Trim("\"" + name), '"') == name
  {
    if name == [] {
      assert "\"" + name == "\"";
    }
    TrimUnpadded("\"" + name);
    RemoveCharAppend("\"", name, '"');
    RemoveCharAbsent(name, '"');
  }

  /**
   * A name containing `=` is cut at its first `=`, because the segment is split at
   * every `=`: filename="a=b.txt" gives "a" (white space before the `=` is trimmed,
   * so the name here does not end in it).
   */
  lemma FileNameCutAtEquals(name: string, rest: string)
    requires ';' !in name && '=' !in name && '"' !in name
    requires name == [] || !IsTrimmed(name[|name| - 1])
    requires ';' !in rest && '=' !in rest
    ensures GetFileName(Some(FileContentDisposition(name + ['='] + rest))) == Ok(name)
  {
    var value := name + ['='] + rest;
    assert ';' !in value;
    var third := " filename" + ['='] + ("\"" + value + "\"");
    var segments := ["form-data", " name=\"file\"", third];
    FileHeaderSegments(value);
    assert JavaSplit(FileContentDisposition(value), ';') == segments;
    FormDataSegmentsAreNotFilenames();
    CutSegment(name, rest);
    assert FirstFilenameSegment(segments, 0) == 2;
    assert JavaSplit(segments[2], '=')[1] == "\"" + name;
    UnquoteOpening(name);
  }

  /**
   * A filename segment with nothing after `=` raises: String.split drops the trailing
   * empty string, so there is no second element to read.
   */
  lemma EmptyFileNameRaises(first: string)
    requires first != [] && ';' !in first && !IsFilenameSegment(first)
    ensures GetFileName(Some(first + [';'] + " filename" + ['='])) == Err(ARRAY_INDEX_OUT_OF_BOUNDS)
  {
    var second := " filename" + ['='];
    var header := first + [';'] + second;
    assert first + [';'] + " filename" + ['='] == header;
    assert ';' !in second && '=' !in " filename";
    JavaSplitTwo(first, second, ';');
    assert JavaSplit(header, ';') == [first, second];
    assert second[1..9] == "filename";
    SpacedFilenameSegment(second);
    assert FirstFilenameSegment([first, second], 0) == 1;
    assert " filename" + ['='] + "" == second;
    JavaSplitTwo(" filename", "", '=');
    assert |JavaSplit(second, '=')| == 1;
  }

  /** The Content-Disposition header "attachment; filename=" raises. */
  lemma AttachmentWithEmptyFileNameRaises()
    ensures GetFileName(Some("attachment" + [';'] + " filename" + ['='])) == Err(ARRAY_INDEX_OUT_OF_BOUNDS)
  {
    NotFilenameSegment("attachment", 0, 0);
    EmptyFileNameRaises("attachment");
  }

  // ---------------------------------------------------------------------------
  // upload and partToString

  /** A multipart input part: its Content-Disposition header and its body (reading it may fail). */
  datatype InputPart = InputPart(contentDisposition: Option<string>, body: Result<string>)

  /** The upload endpoint's answer: an error, or the blob store URL of the uploaded data. */
  datatype UploadFileResponse = UploadFailed(message: string) | Uploaded(userDataUrl: string)

  /**
   * upload: the form must carry exactly one "file" part (none gives "invalid form data",
   * several are refused). The part's file name is read, which can raise (that exception
   * escapes the endpoint: Err here), and its body is stored; `stored` is the blob store's
   * answer, a URL or an error.
   */
  method Upload(form: map<string, seq<InputPart>>, stored: Result<string>)
    returns (r: Result<UploadFileResponse>, fileName: Option<string>)
    ensures "file" !in form ==> r == Ok(UploadFailed("invalid form data"))
    ensures "file" in form && |form["file"]| > 1 ==>
      r == Ok(UploadFailed("we currently support only one file at the time"))
    ensures r.Ok? && r.value.Uploaded? ==> "file" in form && |form["file"]| <= 1 && stored == Ok(r.value.userDataUrl)
    ensures "file" in form && |form["file"]| == 1 ==>
      var part := form["file"][0];
      && (GetFileName(part.contentDisposition).Err? ==> r == Err(GetFileName(part.contentDisposition).message))
      && (GetFileName(part.contentDisposition).Ok? && part.body.Err? ==> r == Ok(UploadFailed(part.body.message)))
      && (GetFileName(part.contentDisposition).Ok? ==> fileName == Some(GetFileName(part.contentDisposition).value))
    ensures "file" in form && form["file"] == [] ==>
      fileName == None && r == Ok(if stored.Ok? then Uploaded(stored.value) else UploadFailed(stored.message))
    ensures "file" in form && |form["file"]| == 1 && GetFileName(form["file"][0].contentDisposition).Ok?
            && form["file"][0].body.Ok? ==>
      r == Ok(if stored.Ok? then Uploaded(stored.value) else UploadFailed(stored.message))
  {
    fileName := None;
    if "file" !in form {
      return Ok(UploadFailed("invalid form data")), fileName;
    }
    var parts := form["file"];
    if |parts| > 1 {
      return Ok(UploadFailed("we currently support only one file at the time")), fileName;
    }
    for i := 0 to |parts|
      invariant i == 0 ==> fileName == None
      invariant i > 0 ==> GetFileName(parts[0].contentDisposition).Ok? && parts[0].body.Ok?
      invariant i > 0 ==> fileName == Some(GetFileName(parts[0].contentDisposition).value)
    {
      var name := GetFileName(parts[i].contentDisposition);
      if name.Err? {
        return Err(name.message), fileName;
      }
      fileName := Some(name.value);
      if parts[i].body.Err? {
        return Ok(UploadFailed(parts[i].body.message)), fileName;
      }
    }
    if stored.Err? {
      return Ok(UploadFailed(stored.message)), fileName;
    }
    r := Ok(Uploaded(stored.value));
  }

  /** partToString: an empty part list is refused; otherwise the first part's body. */
  function PartToString(parts: seq<InputPart>): (r: Result<string>)
    ensures parts == [] ==> r == Err("partList empty")
    ensures parts != [] ==> r == parts[0].body
  {
    if |parts| == 0 then Err("partList empty")
    else parts[0].body
  }

  // ---------------------------------------------------------------------------
  // ImportContainerTask

  datatype ContainerImageType = ROOTFS | SIMG | DOCKERHUB

  datatype ArchiveFormat = TAR | SIMG_FORMAT

  /**
   * Where an image content entry's data comes from: a URL, a file in the import folder,
   * or the root filesystem archive packed from a DockerHub image.
   */
  datatype ContentSource = FromUrl(url: string) | FromFile(folder: string, fileName: string) | FromPackedImage(path: string)

  /** An ImageContentDescription with action EXTRACT and the given archive format. */
  datatype ContentEntry = ContentEntry(source: ContentSource, format: ArchiveFormat)

  datatype ImportContainerRequest = ImportContainerRequest(
    urlString: Option<string>, processArgs: Option<seq<string>>, imageType: Option<ContainerImageType>)

  /**
   * getImageEntryFromUrlStr: a string that parses as a URL (`isUrl`) is used as one;
   * otherwise it is a file name, which must not contain '/' and must exist in the
   * import folder (`fileExists`).
   */
  function ImageEntrySource(urlString: string, isUrl: bool, fileExists: bool): (r: Result<ContentSource>)
    ensures r.Ok? && !isUrl ==> !Contains(urlString, "/") && fileExists
    ensures !isUrl && Contains(urlString, "/") ==>
      r == Err("filename must not be null/empty or contain '/' characters:" + urlString)
    ensures isUrl ==> r == Ok(FromUrl(urlString))
    ensures !isUrl && !Contains(urlString, "/") ==>
      r == if fileExists then Ok(FromFile(IMPORT_FOLDER, urlString))
           else Err("file " + urlString + " not found in input folder")
  {
    if isUrl then Ok(FromUrl(urlString))
    else if Contains(urlString, "/") then Err("filename must not be null/empty or contain '/' characters:" + urlString)
    else if !fileExists then Err("file " + urlString + " not found in input folder")
    else Ok(FromFile(IMPORT_FOLDER, urlString))
  }

  /**
   * The validation prefix of execute(): a missing URL, then missing or empty process
   * arguments, then a missing image type; each failure is returned, not thrown.
   */
  function ValidateImport(req: ImportContainerRequest): (r: Outcome)
    ensures r == Pass <==> req.urlString.Some? && req.processArgs.Some? && |req.processArgs.value| > 0 && req.imageType.Some?
    ensures req.urlString.None? ==> r == Fail("invalid url: null")
    ensures req.urlString.Some? && (req.processArgs.None? || req.processArgs.value == []) ==> r == Fail("missing process args")
  {
    if req.urlString.None? then Fail("invalid url: null")
    else if req.processArgs.None? || |req.processArgs.value| == 0 then Fail("missing process args")
    else if req.imageType.None? then Fail("missing image type")
    else Pass
  }

  class ImportContainerTask {
    const request: ImportContainerRequest
    /** The content entries of this import task's image description, shared by its image builds. */
    var contents: seq<ContentEntry>

    constructor (request: ImportContainerRequest)
      ensures this.request == request && contents == []
    {
      this.request := request;
      contents := [];
    }

    /**
     * createImagefromArchiveFile / createImagefromSingularityImg up to the image build:
     * the resolved source is added to the description as an EXTRACT entry of the format.
     */
    method AddArchiveEntry(srcUrl: string, format: ArchiveFormat, isUrl: bool, fileExists: bool)
      returns (r: Outcome)
      modifies this`contents
      ensures var src := ImageEntrySource(srcUrl, isUrl, fileExists);
        && (src.Ok? ==> r == Pass && contents == old(contents) + [ContentEntry(src.value, format)])
        && (src.Err? ==> r == Fail(src.message) && contents == old(contents))
    {
      var src := ImageEntrySource(srcUrl, isUrl, fileExists);
      if src.Err? {
        return Fail(src.message);
      }
      contents := contents + [ContentEntry(src.value, format)];
      r := Pass;
    }

    /**
     * execute() up to the image build: the request is validated, then a ROOTFS request
     * adds a TAR entry and a SIMG request a Singularity entry for its source. A DOCKERHUB
     * image is fetched, converted and packed by external tools (`packedDockerImage`: the
     * path of the packed root filesystem, or the error raised on the way), and the packed
     * archive is added as a TAR entry.
     */
    method Execute(isUrl: bool, fileExists: bool, packedDockerImage: Result<string>) returns (r: Outcome)
      modifies this`contents
      ensures ValidateImport(request).Fail? ==> r == ValidateImport(request) && contents == old(contents)
      ensures ValidateImport(request).Pass? && request.imageType.value != DOCKERHUB ==>
        var src := ImageEntrySource(request.urlString.value, isUrl, fileExists);
        var format := if request.imageType.value == ROOTFS then TAR else SIMG_FORMAT;
        && (src.Ok? ==> r == Pass && contents == old(contents) + [ContentEntry(src.value, format)])
        && (src.Err? ==> r == Fail(src.message) && contents == old(contents))
      ensures ValidateImport(request).Pass? && request.imageType.value == DOCKERHUB ==>
        && (packedDockerImage.Ok? ==>
              r == Pass && contents == old(contents) + [ContentEntry(FromPackedImage(packedDockerImage.value), TAR)])
        && (packedDockerImage.Err? ==> r == Fail(packedDockerImage.message) && contents == old(contents))
      ensures (request.imageType.Some? && request.imageType.value != DOCKERHUB && request.urlString.Some?
               && !isUrl && Contains(request.urlString.value, "/"))
              ==> r.Fail? && contents == old(contents)
    {
      r := ValidateImport(request);
      if r.Fail? {
        return;
      }
      match request.imageType.value {
        case ROOTFS =>
          r := AddArchiveEntry(request.urlString.value, TAR, isUrl, fileExists);
        case SIMG =>
          r := AddArchiveEntry(request.urlString.value, SIMG_FORMAT, isUrl, fileExists);
        case DOCKERHUB =>
          if packedDockerImage.Err? {
            return Fail(packedDockerImage.message);
          }
          contents := contents + [ContentEntry(FromPackedImage(packedDockerImage.value), TAR)];
          r := Pass;
      }
    }
  }
}
