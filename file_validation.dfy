/**
 * The browser-side checks run on image files before they are uploaded:
 * one file at a time (type, then size, then extension) and a whole batch
 * (count, then total size, then each file in turn).
 */
module FileValidation {
  import opened JsText

  /** A browser `File`: its name, MIME type and size in bytes. */
  datatype FileInfo = FileInfo(name: string, mimeType: string, size: nat)

  /** `{ isValid: true }` or `{ isValid: false, error }`. */
  datatype Validation = Valid | Invalid(error: string)

  /** 4.5 MiB, the largest single file. */
  const MaxFileSize: nat := 4718592
  /** 20 MiB, the largest batch. */
  const MaxTotalSize: nat := 20971520
  const MaxFiles: nat := 10

  /** The keys of the supported-types table. */
  const SupportedTypes: seq<string> := ["image/jpeg", "image/png", "image/gif", "image/webp"]

  /** The extensions the supported-types table lists for a MIME type. */
  function AllowedExtensions(mimeType: string): (r: seq<string>)
    ensures r != [] <==> mimeType in SupportedTypes
  {
    if mimeType == "image/jpeg" then [".jpg", ".jpeg"]
    else if mimeType == "image/png" then [".png"]
    else if mimeType == "image/gif" then [".gif"]
    else if mimeType == "image/webp" then [".webp"]
    else []
  }

  const UnsupportedTypeError := "Unsupported file type. Please use: .jpg, .jpeg, .png, .gif, .webp"
  /** The size message, with the limit as `formatFileSize` prints 4718592 bytes. */
  const FileTooLargeError := "File size too large. Maximum size is 4.5 MB"
  const ExtensionMismatchError := "File extension does not match file type"
  const TooManyFilesError := "Too many files. Maximum is 10 files"
  /** The total-size message, with the limit as `formatFileSize` prints 20971520 bytes. */
  const TotalTooLargeError := "Total file size too large. Maximum is 20 MB"

  /** `s.lastIndexOf(sep)`: the position of the last `sep` in `s`, or -1 when there is none. */
  function LastIndexOf(s: string, sep: char): (k: int)
    ensures -1 <= k < |s|
    ensures k >= 0 ==> s[k] == sep
    ensures forall j :: k < j < |s| ==> s[j] != sep
    decreases |s|
  {
    if s == [] then -1
    else if s[|s| - 1] == sep then |s| - 1
    else LastIndexOf(s[..|s| - 1], sep)
  }

  /** The last `sep` is the one with no other after it. */
  lemma LastIndexOfAt(s: string, sep: char, k: int)
    requires -1 <= k < |s| && (k >= 0 ==> s[k] == sep)
    requires forall j :: k < j < |s| ==> s[j] != sep
    ensures LastIndexOf(s, sep) == k
  {
  }

  /**
   * `s.split(sep).pop()`: the text after the last `sep`, or all of `s`
   * when it has none.
   */
  function AfterLast(s: string, sep: char): string {
    s[LastIndexOf(s, sep) + 1..]
  }

  /** `'.' + name.split('.').pop().toLowerCase()`. */
  function FileExtension(name: string): string {
    "." + Lower(AfterLast(name, '.'))
  }

  /** `validateFile`: the type, then the size against 4.5 MiB, then the extension against the type. */
  function ValidateFile(f: FileInfo): (r: Validation)
    ensures r.Valid? <==>
      f.mimeType in SupportedTypes && f.size <= MaxFileSize && FileExtension(f.name) in AllowedExtensions(f.mimeType)
    ensures f.mimeType !in SupportedTypes ==> r == Invalid(UnsupportedTypeError)
    ensures f.mimeType in SupportedTypes && f.size > MaxFileSize ==> r == Invalid(FileTooLargeError)
  {
    if f.mimeType !in SupportedTypes then Invalid(UnsupportedTypeError)
    else if f.size > MaxFileSize then Invalid(FileTooLargeError)
    else if FileExtension(f.name) !in AllowedExtensions(f.mimeType) then Invalid(ExtensionMismatchError)
    else Valid
  }

  /** `files.reduce((sum, file) => sum + file.size, 0)`. */
  function TotalSize(files: seq<FileInfo>): nat {
    if files == [] then 0 else files[0].size + TotalSize(files[1..])
  }

  /** The result for a batch: the count, then the total size, then the first file that fails. */
  function BatchValidation(files: seq<FileInfo>): Validation {
    if |files| > MaxFiles then Invalid(TooManyFilesError)
    else if TotalSize(files) > MaxTotalSize then Invalid(TotalTooLargeError)
    else FirstFailure(files)
  }

  /** The result of the first file that fails, or `Valid` when none does. */
  function FirstFailure(files: seq<FileInfo>): Validation {
    if files == [] then Valid
    else if ValidateFile(files[0]).Invalid? then ValidateFile(files[0])
    else FirstFailure(files[1..])
  }

  /**
   * A batch within both limits is valid exactly when every file is, and
   * otherwise gets the error of the first file that is not.
   */
  lemma {:induction false} FirstFailureCharacterised(files: seq<FileInfo>)
    ensures FirstFailure(files).Valid? <==> forall i :: 0 <= i < |files| ==> ValidateFile(files[i]).Valid?
    ensures FirstFailure(files).Invalid? ==>
      (FailingIndex(files) < |files| && FirstFailure(files) == ValidateFile(files[FailingIndex(files)])
       && forall i :: 0 <= i < FailingIndex(files) ==> ValidateFile(files[i]).Valid?)
  {
    FirstFailureValid(files);
    if FirstFailure(files).Invalid? {
      FirstFailureAt(files);
    }
  }

  /** The position of the first file that fails, or the length when none does. */
  function FailingIndex(files: seq<FileInfo>): nat {
    if files == [] || ValidateFile(files[0]).Invalid? then 0 else 1 + FailingIndex(files[1..])
  }

  lemma {:induction false} FirstFailureValid(files: seq<FileInfo>)
    ensures FirstFailure(files).Valid? <==> forall i :: 0 <= i < |files| ==> ValidateFile(files[i]).Valid?
  {
    if files != [] && ValidateFile(files[0]).Valid? {
      var rest := files[1..];
      FirstFailureValid(rest);
      assert forall i :: 1 <= i < |files| ==> files[i] == rest[i - 1];
    }
  }

  lemma {:induction false} FirstFailureAt(files: seq<FileInfo>)
    requires FirstFailure(files).Invalid?
    ensures FailingIndex(files) < |files|
    ensures FirstFailure(files) == ValidateFile(files[FailingIndex(files)])
    ensures forall i :: 0 <= i < FailingIndex(files) ==> ValidateFile(files[i]).Valid?
  {
    if ValidateFile(files[0]).Valid? {
      var rest := files[1..];
      FirstFailureAt(rest);
      var k := FailingIndex(rest);
      assert files[k + 1] == rest[k];
      forall i | 0 <= i < k + 1
        ensures ValidateFile(files[i]).Valid?
      {
        if i > 0 {
          assert files[i] == rest[i - 1];
        }
      }
    }
  }

  /** `validateFiles`: the for-of loop that returns the first failing file's result. */
  method ValidateFiles(files: seq<FileInfo>) returns (r: Validation)
    ensures r == BatchValidation(files)
  {
    if |files| > MaxFiles {
      return Invalid(TooManyFilesError);
    }
    if TotalSize(files) > MaxTotalSize {
      return Invalid(TotalTooLargeError);
    }
    var i := 0;
    while i < |files|
      invariant 0 <= i <= |files|
      invariant FirstFailure(files[i..]) == FirstFailure(files)
    {
      var validation := ValidateFile(files[i]);
      assert files[i..][1..] == files[i + 1..];
      if validation.Invalid? {
        return validation;
      }
      i := i + 1;
    }
    return Valid;
  }

  /**
   * The extension is read from the name without regard to case, and a name
   * without a dot is its own extension: "photo.JPG" and a file named just
   * "jpg" both pass as JPEG images, while "photo.png" declared as a JPEG
   * does not.
   */
  lemma UpperCaseExtension()
    ensures ValidateFile(FileInfo("photo.JPG", "image/jpeg", 1000)).Valid?
  {
    LastIndexOfAt("photo.JPG", '.', 5);
    assert AfterLast("photo.JPG", '.') == "JPG";
    assert Lower("JPG") == "jpg";
    assert FileExtension("photo.JPG") == ".jpg";
  }

  lemma DotlessName()
    ensures ValidateFile(FileInfo("jpg", "image/jpeg", 1000)).Valid?
  {
    LastIndexOfAt("jpg", '.', -1);
    assert AfterLast("jpg", '.') == "jpg";
    assert Lower("jpg") == "jpg";
    assert FileExtension("jpg") == ".jpg";
  }

  lemma WrongExtension()
    ensures ValidateFile(FileInfo("photo.png", "image/jpeg", 1000)) == Invalid(ExtensionMismatchError)
  {
    LastIndexOfAt("photo.png", '.', 5);
    assert AfterLast("photo.png", '.') == "png";
    assert Lower("png") == "png";
    assert FileExtension("photo.png") == ".png";
    assert ".png" != ".jpg" && ".png" != ".jpeg";
  }

  /**
   * Both limits are inclusive: a file of exactly 4.5 MiB is accepted when
   * its type and extension are, and one byte more is refused for its size
   * whatever its name.
   */
  lemma SizeLimitInclusive(name: string, mimeType: string)
    requires mimeType in SupportedTypes && FileExtension(name) in AllowedExtensions(mimeType)
    ensures ValidateFile(FileInfo(name, mimeType, MaxFileSize)).Valid?
    ensures ValidateFile(FileInfo(name, mimeType, MaxFileSize + 1)) == Invalid(FileTooLargeError)
  {
  }

  /** A type outside the four images is refused for its type before its size or name are looked at. */
  lemma TypeCheckedFirst(f: FileInfo)
    requires f.mimeType !in SupportedTypes
    ensures ValidateFile(f) == Invalid(UnsupportedTypeError)
    ensures f.size > MaxFileSize ==> ValidateFile(f) != Invalid(FileTooLargeError)
  {
  }

  /**
   * A valid file's name ends with its extension, compared without case:
   * the characters after its last dot (or the whole name) lower-case to
   * the extension's letters.
   */
  lemma ValidNameEndsWithExtension(f: FileInfo)
    requires ValidateFile(f).Valid?
    ensures var ext := FileExtension(f.name)[1..];
      |ext| <= |f.name| && Lower(f.name[|f.name| - |ext|..]) == ext && '.' !in ext
  {
    var k := LastIndexOf(f.name, '.');
    var tail := f.name[k + 1..];
    assert FileExtension(f.name)[1..] == Lower(tail);
    assert |Lower(tail)| == |tail| && f.name[|f.name| - |tail|..] == tail;
    forall i | 0 <= i < |tail| ensures Lower(tail)[i] != '.' {
      assert tail[i] == f.name[k + 1 + i];
    }
  }

  /** The sum of the sizes of two batches. */
  lemma {:induction false} TotalSizeAppend(a: seq<FileInfo>, b: seq<FileInfo>)
    ensures TotalSize(a + b) == TotalSize(a) + TotalSize(b)
  {
    if a != [] {
      assert (a + b)[1..] == a[1..] + b;
      TotalSizeAppend(a[1..], b);
    } else {
      assert a + b == b;
    }
  }
}
