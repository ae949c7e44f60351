/** Upload checks: the file extension a name carries (`pathlib`'s
    `Path(name).suffix.lower()`), the camera-capture default, and the
    validation and analysis `FileHandler` performs before any text is
    extracted. */
module Uploads {
  import opened Wrappers
  import opened Strs
  import opened Models

  /** The accepted extensions, in the order the error message lists them. */
  const AllowedTypes: seq<string> := [".txt", ".pdf", ".png", ".jpg", ".jpeg"]

  /** The accepted extensions as the error message lists them. */
  const AllowedList := ".txt, .pdf, .png, .jpg, .jpeg"

  /** Ten mebibytes. */
  const MaxFileSize: nat := 10 * 1024 * 1024

  /** Names the mobile camera upload gives its pictures start with this. */
  const CameraPrefix := "captured_image"

  // -------------------------------------------------------------- paths

  /** The last path part that is neither empty nor ".", or "" when there is
      none: how a POSIX path's `name` ignores repeated, trailing and "."
      separators. */
  function LastNamed(parts: seq<string>): (name: string)
    ensures name == "" || name in parts
    ensures name != "."
    ensures |parts| > 0 && parts[|parts| - 1] != "" && parts[|parts| - 1] != "." ==> name == parts[|parts| - 1]
  {
    if |parts| == 0 then ""
    else
      var last := parts[|parts| - 1];
      if last != "" && last != "." then last else LastNamed(parts[..|parts| - 1])
  }

  /** `PurePosixPath(path).name`. */
  function PathName(path: string): (name: string)
    ensures '/' !in name && name != "."
  {
    LastNamed(Split(path, '/'))
  }

  /** `PurePosixPath(path).suffix`: from the last dot of the name, when that
      dot is neither the name's first nor its last character. */
  function Suffix(path: string): (s: string)
    ensures s != "" ==> |s| >= 2 && s[0] == '.' && '.' !in s[1..] && '/' !in s
    ensures s != "" ==> |s| < |PathName(path)| && s == PathName(path)[|PathName(path)| - |s|..]
  {
    var name := PathName(path);
    var i := RFind(name, '.');
    if 0 < i < |name| - 1 then name[i..] else ""
  }

  /** A name without separators is its own path name. */
  lemma PlainPathName(name: string)
    requires '/' !in name && name != "" && name != "."
    ensures PathName(name) == name
  {
    assert Split(name, '/') == [name];
  }

  /** The last part of a split is what follows the last separator, whatever
      precedes it. */
  lemma {:induction false} SplitEndsWith(pre: string, sep: char, tail: string)
    requires sep !in tail
    ensures var parts := Split(pre + [sep] + tail, sep); parts[|parts| - 1] == tail
    decreases |pre|
  {
    var s := pre + [sep] + tail;
    if sep !in pre {
      LastSegmentAfter(pre, sep, tail);
    } else {
      var k := Find(pre, sep);
      assert Find(s, sep) == k by {
        assert s[..k] == pre[..k] && s[k] == sep;
        FindAt(s, sep, k);
      }
      assert s[k + 1..] == pre[k + 1..] + [sep] + tail by {
        DropFromConcat(pre, [sep] + tail, k + 1);
      }
      SplitEndsWith(pre[k + 1..], sep, tail);
    }
  }

  lemma DropFromConcat(a: string, b: string, n: nat)
    requires n <= |a|
    ensures (a + b)[n..] == a[n..] + b
  {
  }

  /** Only the final component counts: the directories before it do not
      change the suffix. */
  lemma DirectoriesIgnored(dir: string, name: string)
    requires '/' !in name && name != "" && name != "."
    ensures Suffix(dir + "/" + name) == Suffix(name)
  {
    var path := dir + "/" + name;
    assert path == dir + ['/'] + name;
    SplitEndsWith(dir, '/', name);
    assert PathName(path) == name;
    PlainPathName(name);
  }

  /** `stem.ext` has the suffix `.ext` when the stem is not empty. */
  lemma SuffixOfStemAndExt(stem: string, ext: string)
    requires stem != "" && ext != ""
    requires '/' !in stem && '/' !in ext && '.' !in ext
    ensures Suffix(stem + "." + ext) == "." + ext
  {
    var name := stem + "." + ext;
    PlainPathName(name);
    assert name[|stem|] == '.';
    assert name[|stem| + 1..] == ext;
    assert RFind(name, '.') == |stem|;
  }

  /** A name without a dot, and a dot-file such as `.env`, have no suffix. */
  lemma NoSuffix(stem: string)
    requires '/' !in stem && '.' !in stem
    ensures Suffix(stem) == ""
    ensures Suffix("." + stem) == ""
  {
    var dotted := "." + stem;
    if stem == "" {
      assert Split(dotted, '/') == [dotted];
    } else {
      PlainPathName(stem);
      PlainPathName(dotted);
      assert dotted[1..] == stem;
    }
    assert RFind(dotted, '.') == 0;
  }

  // --------------------------------------------------------- extension

  /** The extension the handler works with: the lower-cased suffix, or
      ".jpg" for a camera capture whose name carries none. */
  function FileExtension(filename: string): (ext: string)
    ensures CameraPrefix <= filename && Suffix(filename) == "" ==> ext == ".jpg"
    ensures Suffix(filename) != "" ==> ext == Lower(Suffix(filename))
    ensures !(CameraPrefix <= filename) && Suffix(filename) == "" ==> ext == ""
  {
    var ext := Lower(Suffix(filename));
    if CameraPrefix <= filename && ext == "" then ".jpg" else ext
  }

  /** `stem.EXT` is checked as `.ext`, in lower case, camera capture or not. */
  lemma StemAndExtExtension(stem: string, ext: string)
    requires stem != "" && ext != ""
    requires '/' !in stem && '/' !in ext && '.' !in ext
    ensures FileExtension(stem + "." + ext) == "." + Lower(ext)
  {
    SuffixOfStemAndExt(stem, ext);
    assert Lower("." + ext) == "." + Lower(ext);
  }

  /** The camera prefix holds neither a separator nor a dot. */
  lemma CameraPrefixPlain()
    ensures '/' !in CameraPrefix && '.' !in CameraPrefix
  {
    forall i | 0 <= i < |CameraPrefix|
      ensures CameraPrefix[i] != '/' && CameraPrefix[i] != '.'
    {
      assert 'a' <= CameraPrefix[i] <= 'z' || CameraPrefix[i] == '_';
    }
  }

  /** A camera capture without a dot in its name is treated as a JPEG. */
  lemma CameraCaptureIsJpeg(rest: string)
    requires '/' !in rest && '.' !in rest
    ensures FileExtension(CameraPrefix + rest) == ".jpg"
  {
    var name := CameraPrefix + rest;
    assert name[..|CameraPrefix|] == CameraPrefix;
    CameraPrefixPlain();
    assert forall i :: 0 <= i < |name| ==> name[i] != '/' && name[i] != '.' by {
      forall i | 0 <= i < |name|
        ensures name[i] != '/' && name[i] != '.'
      {
        if i < |CameraPrefix| {
          assert name[i] == CameraPrefix[i];
        } else {
          assert name[i] == rest[i - |CameraPrefix|];
        }
      }
    }
    NoSuffix(name);
  }

  // -------------------------------------------------------- validation

  /** The `ValueError`s `validate_file` raises. */
  datatype UploadError = NoFile | UnsupportedType(ext: string) | TooLarge(size: int)

  /** The error text; the size in MB is printed with one decimal, which is
      supplied by `formatMb`. */
  function Message(e: UploadError, formatMb: int -> string): (m: string)
    ensures e.NoFile? ==> m == "No file selected"
    ensures e.UnsupportedType? ==> m == "File type " + e.ext + " not supported. Use: " + AllowedList
    ensures e.TooLarge? ==> m == "File size " + formatMb(e.size) + "MB exceeds limit of 10.0MB"
  {
    match e
    case NoFile => "No file selected"
    case UnsupportedType(ext) =>
      AllowedTypesListed();
      "File type " + ext + " not supported. Use: " + Join(", ", AllowedTypes)
    case TooLarge(size) => "File size " + formatMb(size) + "MB exceeds limit of 10.0MB"
  }

  /** The accepted extensions as the error message lists them. */
  lemma AllowedTypesListed()
    ensures Join(", ", AllowedTypes) == AllowedList
  {
    var t := AllowedTypes;
    assert Join(", ", t[4..]) == ".jpeg";
    assert Join(", ", t[3..]) == ".jpg" + ", " + Join(", ", t[4..]);
    assert Join(", ", t[2..]) == ".png" + ", " + Join(", ", t[3..]);
    assert Join(", ", t[1..]) == ".pdf" + ", " + Join(", ", t[2..]);
    assert Join(", ", t) == ".txt" + ", " + Join(", ", t[1..]);
  }

  /** `validate_file`: None when the upload is accepted; otherwise the
      first failing check, in the order name, type, size. */
  function ValidateFile(filename: string, fileSize: int): (r: Option<UploadError>)
    ensures r == Some(NoFile) <==> filename == ""
    ensures r == Some(UnsupportedType(FileExtension(filename))) <==>
      filename != "" && FileExtension(filename) !in AllowedTypes
    ensures r == Some(TooLarge(fileSize)) <==>
      filename != "" && FileExtension(filename) in AllowedTypes && fileSize > MaxFileSize
    ensures r.None? <==> filename != "" && FileExtension(filename) in AllowedTypes && fileSize <= MaxFileSize
  {
    if filename == "" then Some(NoFile)
    else
      var ext := FileExtension(filename);
      if ext !in AllowedTypes then Some(UnsupportedType(ext))
      else if fileSize > MaxFileSize then Some(TooLarge(fileSize))
      else None
  }

  /** Exactly ten mebibytes is still accepted; one byte more is not. */
  lemma SizeLimitInclusive(filename: string)
    requires filename != "" && FileExtension(filename) in AllowedTypes
    ensures ValidateFile(filename, MaxFileSize).None?
    ensures ValidateFile(filename, MaxFileSize + 1) == Some(TooLarge(10485761))
  {
  }

  /** `analyze_file`: validate, then describe the upload. The camera flag is
      set by the name prefix alone, even when the name has its own suffix. */
  function AnalyzeFile(content: seq<bv8>, filename: string): (r: Result<FileInfo, UploadError>)
    ensures r.Failure? <==> ValidateFile(filename, |content|).Some?
    ensures r.Failure? ==> r.error == ValidateFile(filename, |content|).value
    ensures r.Success? ==> r.value.filename == filename && r.value.sizeBytes == |content|
    ensures r.Success? ==> r.value.fileType == FileExtension(filename) && r.value.fileType in AllowedTypes
    ensures r.Success? ==> r.value.sizeBytes <= MaxFileSize
    ensures r.Success? ==> (r.value.isCameraCapture <==> CameraPrefix <= filename)
  {
    match ValidateFile(filename, |content|)
    case Some(e) => Failure(e)
    case None => Success(FileInfo(filename, |content|, FileExtension(filename), CameraPrefix <= filename))
  }

  lemma NoSeparatorInConcat(a: string, b: string)
    requires '/' !in a && '/' !in b
    ensures '/' !in a + b
  {
    forall i | 0 <= i < |a + b|
      ensures (a + b)[i] != '/'
    {
      if i < |a| {
        assert (a + b)[i] == a[i];
      } else {
        assert (a + b)[i] == b[i - |a|];
      }
    }
  }

  /** An accepted `stem.ext` is described with its lower-cased extension. */
  lemma AcceptedStemAndExt(content: seq<bv8>, stem: string, ext: string)
    requires stem != "" && '/' !in stem && '/' !in ext && '.' !in ext && ext != ""
    requires "." + Lower(ext) in AllowedTypes && |content| <= MaxFileSize
    ensures AnalyzeFile(content, stem + "." + ext) ==
      Success(FileInfo(stem + "." + ext, |content|, "." + Lower(ext), CameraPrefix <= stem + "." + ext))
  {
    StemAndExtExtension(stem, ext);
  }

  lemma CameraPrefixed(rest: string, ext: string)
    ensures CameraPrefix <= CameraPrefix + rest + "." + ext
  {
    var tail := rest + "." + ext;
    assert (CameraPrefix + tail)[..|CameraPrefix|] == CameraPrefix;
    assert CameraPrefix + rest + "." + ext == CameraPrefix + tail;
  }

  /** An accepted camera capture named `captured_image<rest>.<ext>` keeps its
      own extension and is still flagged as a camera capture. */
  lemma CameraCaptureWithExtension(content: seq<bv8>, rest: string, ext: string)
    requires '/' !in rest && '/' !in ext && '.' !in ext && ext != ""
    requires "." + Lower(ext) in AllowedTypes && |content| <= MaxFileSize
    ensures var name := CameraPrefix + rest + "." + ext;
      AnalyzeFile(content, name) == Success(FileInfo(name, |content|, "." + Lower(ext), true))
  {
    var stem := CameraPrefix + rest;
    CameraPrefixPlain();
    NoSeparatorInConcat(CameraPrefix, rest);
    assert stem != "";
    AcceptedStemAndExt(content, stem, ext);
    CameraPrefixed(rest, ext);
  }
}
