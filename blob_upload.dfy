/**
 * Storing images in the blob store: the unique file name built from a
 * timestamp, a random string and the cleaned original name, the dated
 * blob path, the server-side file check, and upload results that report
 * failure instead of throwing.
 */
module BlobUpload {
  import opened Wrappers
  import opened JsText
  import opened FileValidation

  // ---------------------------------------------------------------- unique file names

  /** A character the name cleaner keeps: `[a-zA-Z0-9-_]`. */
  predicate SafeChar(c: char) {
    'a' <= c <= 'z' || 'A' <= c <= 'Z' || '0' <= c <= '9' || c == '-' || c == '_'
  }

  /** No `/` after position `k`. */
  predicate NoSlashAfter(name: string, k: int) {
    forall j :: 0 <= j < |name| && k < j ==> name[j] != '/'
  }

  /**
   * `name.replace(/\.[^/.]+$/, "")`: the last dot and what follows it are
   * removed when at least one character follows and none of them is `/`.
   */
  function StripExtension(name: string): (r: string)
    ensures r == name || (|r| < |name| && r == name[..|r|] && name[|r|] == '.')
  {
    var k := LastIndexOf(name, '.');
    if k >= 0 && k + 1 < |name| && NoSlashAfter(name, k) then name[..k] else name
  }

  /** `.replace(/[^a-zA-Z0-9-_]/g, '_')`. */
  function Sanitise(s: string): (r: string)
    ensures |r| == |s|
    ensures forall i :: 0 <= i < |s| ==> r[i] == (if SafeChar(s[i]) then s[i] else '_')
  {
    seq(|s|, i requires 0 <= i < |s| => if SafeChar(s[i]) then s[i] else '_')
  }

  /**
   * `generateUniqueFilename`, with `Date.now()` and the random string given:
   * `<timestamp>_<random>_<cleaned base name>.<extension>`, where the
   * extension is the text after the last dot (`split('.').pop()`).
   */
  function UniqueFilename(originalName: string, timestamp: nat, random: string): string {
    JoinFilename(NatToString(timestamp), random, Sanitise(StripExtension(originalName)), AfterLast(originalName, '.'))
  }

  /** `${timestamp}_${random}_${base}.${ext}`. */
  function JoinFilename(timestamp: string, random: string, base: string, ext: string): string {
    timestamp + ("_" + random + "_" + base + ("." + ext))
  }

  /** The unique name reads back, with `parseInt`, as the timestamp it starts with. */
  lemma UniqueFilenameTimestamp(originalName: string, timestamp: nat, random: string)
    ensures ParseInt(UniqueFilename(originalName, timestamp, random)) == Some(timestamp)
  {
    var d := NatToString(timestamp);
    if d[0] == '0' { NatToStringShort(timestamp); }
    LeadingTimestamp(d, random, Sanitise(StripExtension(originalName)), AfterLast(originalName, '.'));
  }

  lemma LeadingTimestamp(d: string, random: string, base: string, ext: string)
    requires d != [] && AllDigits(d) && (d[0] == '0' ==> |d| == 1)
    ensures ParseInt(JoinFilename(d, random, base, ext)) == Some(DecimalValue(d))
  {
    ParseIntLeadingDigits(d, "_" + random + "_" + base + ("." + ext));
  }

  /** Every character of the cleaned base name is one the cleaner keeps. */
  lemma SanitisedBaseSafe(originalName: string)
    ensures var base := Sanitise(StripExtension(originalName));
      forall i :: 0 <= i < |base| ==> SafeChar(base[i])
  {
  }

  /** `r` ends with a dot followed by `ext`. */
  predicate EndsWithDotted(r: string, ext: string) {
    |ext| < |r| && r[|r| - |ext|..] == ext && r[|r| - |ext| - 1] == '.'
  }

  /** The unique name ends with a dot and the original extension. */
  lemma UniqueFilenameExtension(originalName: string, timestamp: nat, random: string)
    ensures EndsWithDotted(UniqueFilename(originalName, timestamp, random), AfterLast(originalName, '.'))
  {
    DottedTail(NatToString(timestamp), random, Sanitise(StripExtension(originalName)), AfterLast(originalName, '.'));
  }

  lemma DottedTail(d: string, random: string, base: string, ext: string)
    ensures EndsWithDotted(JoinFilename(d, random, base, ext), ext)
  {
    var r := JoinFilename(d, random, base, ext);
    forall i | 0 <= i < |ext| ensures r[|r| - |ext| + i] == ext[i] {
    }
    assert r[|r| - |ext|..] == ext;
  }

  /** The text after the last separator holds no separator: an extension has no dot of its own. */
  lemma AfterLastHasNoSep(s: string, sep: char)
    ensures sep !in AfterLast(s, sep)
  {
    var k := LastIndexOf(s, sep);
    forall i | 0 <= i < |s| - k - 1 ensures AfterLast(s, sep)[i] != sep {
      assert AfterLast(s, sep)[i] == s[k + 1 + i];
    }
  }

  /**
   * For a name with an extension (a last dot followed by characters other
   * than `/`), the base name and the extension put back together give the
   * original name.
   */
  lemma BaseAndExtensionRejoin(name: string)
    requires var k := LastIndexOf(name, '.'); k >= 0 && k + 1 < |name| && NoSlashAfter(name, k)
    ensures StripExtension(name) + "." + AfterLast(name, '.') == name
  {
    var k := LastIndexOf(name, '.');
    assert StripExtension(name) == name[..k];
    assert AfterLast(name, '.') == name[k + 1..];
    SplitAt(name, k);
  }

  lemma PrefixOf(a: string, b: string)
    ensures |a| <= |a + b| && (a + b)[..|a|] == a
  {
  }

  lemma SuffixOf(a: string, b: string)
    ensures (a + b)[|a|..] == b
  {
  }

  lemma SplitAt(s: string, k: int)
    requires 0 <= k < |s|
    ensures s[..k] + [s[k]] + s[k + 1..] == s
  {
    assert s[..k] + [s[k]] == s[..k + 1];
  }

  /** A name without a dot keeps its whole text as the base and repeats it as the extension. */
  lemma DotlessNameRepeated(name: string, timestamp: nat, random: string)
    requires '.' !in name
    ensures UniqueFilename(name, timestamp, random)
      == NatToString(timestamp) + "_" + random + "_" + Sanitise(name) + "." + name
  {
    LastIndexOfAt(name, '.', -1);
  }

  // ---------------------------------------------------------------- the server-side check

  const BlobTooLargeError := "File size too large. Maximum size is 4.5MB"
  const BlobTypeError := "Invalid file type. Allowed types: image/jpeg, image/png, image/gif, image/webp"

  /** `validateFileForBlob`: the size first, then the type; the name is not looked at. */
  function ValidateFileForBlob(f: FileInfo): (r: Validation)
    ensures r.Valid? <==> f.size <= MaxFileSize && f.mimeType in SupportedTypes
    ensures f.size > MaxFileSize ==> r == Invalid(BlobTooLargeError)
  {
    if f.size > MaxFileSize then Invalid(BlobTooLargeError)
    else if f.mimeType !in SupportedTypes then Invalid(BlobTypeError)
    else Valid
  }

  /**
   * The browser check is the stricter one: a file it accepts is accepted
   * by the server check too. The two report different problems for a file
   * that is both too large and of the wrong type, since they check in the
   * opposite order.
   */
  lemma BrowserCheckStricter(f: FileInfo)
    ensures ValidateFile(f).Valid? ==> ValidateFileForBlob(f).Valid?
    ensures f.size > MaxFileSize && f.mimeType !in SupportedTypes ==>
      ValidateFileForBlob(f) == Invalid(BlobTooLargeError) && ValidateFile(f) == Invalid(UnsupportedTypeError)
  {
  }

  // ---------------------------------------------------------------- blob paths and upload results

  /**
   * `generators/<year>/<month>/<file name>`, with `getMonth()` (0 to 11)
   * given as `month0` and written one higher.
   */
  function BlobPath(year: int, month0: nat, filename: string): string
    requires month0 < 12
  {
    "generators/" + IntToString(year) + "/" + NatToString(month0 + 1) + "/" + filename
  }

  /**
   * The path lies in the `generators/` folder, and its month segment reads
   * back as a month from 1 to 12.
   */
  lemma BlobPathFolderAndMonth(year: int, month0: nat, filename: string)
    requires month0 < 12
    ensures BlobPath(year, month0, filename)[..11] == "generators/"
    ensures ParseInt(NatToString(month0 + 1)) == Some(month0 + 1) && 1 <= month0 + 1 <= 12
  {
    ParseIntNatToString(month0 + 1);
  }

  /** A file name without `/` is the path's last segment. */
  lemma BlobPathLastSegment(year: int, month0: nat, filename: string)
    requires month0 < 12 && '/' !in filename
    ensures AfterLast(BlobPath(year, month0, filename), '/') == filename
  {
    var p := BlobPath(year, month0, filename);
    var k := |p| - |filename| - 1;
    assert p[k] == '/';
    forall j | k < j < |p| ensures p[j] != '/' {
      assert p[j] == filename[j - k - 1];
    }
    LastIndexOfAt(p, '/', k);
    assert p[k + 1..] == filename;
  }

  /** What `put` did with the blob path: stored it at a url, or threw (with an `Error` message or something else). */
  datatype PutOutcome = Stored(url: string, pathname: string) | Threw(message: Option<string>)

  datatype BlobUploadResult = BlobUploadResult(
    url: string,
    pathname: string,
    contentType: string,
    contentDisposition: string,
    size: nat,
    uploadedAt: int,
    error: Option<string>)

  /** The result either upload function returns for a put outcome: on failure no url, an error, and the size kept. */
  function UploadResult(outcome: PutOutcome, finalFilename: string, contentType: string, size: nat, now: int)
    : (r: BlobUploadResult)
    ensures r.contentType == contentType && r.size == size && r.uploadedAt == now
    ensures r.error.None? <==> outcome.Stored?
    ensures outcome.Stored? ==>
      (r.url == outcome.url && r.pathname == outcome.pathname
       && r.contentDisposition == "inline; filename=\"" + finalFilename + "\"")
    ensures outcome.Threw? ==>
      (r.url == "" && r.pathname == "" && r.contentDisposition == ""
       && r.error == Some(if outcome.message.Some? then outcome.message.value else "Upload failed"))
  {
    match outcome
    case Stored(url, pathname) =>
      BlobUploadResult(url, pathname, contentType, "inline; filename=\"" + finalFilename + "\"", size, now, None)
    case Threw(message) =>
      BlobUploadResult("", "", contentType, "", size, now,
        Some(if message.Some? then message.value else "Upload failed"))
  }

  /**
   * `uploadToVercelBlob`: the given file name when truthy, a unique name
   * otherwise, put under the dated path; the clock, the random string and
   * the store are given.
   */
  function UploadFile(file: FileInfo, filename: Option<string>, timestamp: nat, random: string,
    year: int, month0: nat, now: int, put: string -> PutOutcome): (r: BlobUploadResult)
    requires month0 < 12
    ensures var name := if filename.Some? && filename.value != "" then filename.value
        else UniqueFilename(file.name, timestamp, random);
      r == UploadResult(put(BlobPath(year, month0, name)), name, file.mimeType, file.size, now)
    ensures r.size == file.size && (r.url == "" <== r.error.Some?)
  {
    var name := if filename.Some? && filename.value != "" then filename.value
      else UniqueFilename(file.name, timestamp, random);
    UploadResult(put(BlobPath(year, month0, name)), name, file.mimeType, file.size, now)
  }

  /** `uploadBufferToVercelBlob`: always a unique name, the given content type, the buffer's length as size. */
  function UploadBuffer(length: nat, filename: string, contentType: string, timestamp: nat, random: string,
    year: int, month0: nat, now: int, put: string -> PutOutcome): (r: BlobUploadResult)
    requires month0 < 12
    ensures var name := UniqueFilename(filename, timestamp, random);
      r == UploadResult(put(BlobPath(year, month0, name)), name, contentType, length, now)
    ensures r.size == length && r.contentType == contentType && (r.url == "" <== r.error.Some?)
  {
    var name := UniqueFilename(filename, timestamp, random);
    UploadResult(put(BlobPath(year, month0, name)), name, contentType, length, now)
  }
}
