/** The drop zone and file picker of the home page
    (src/features/home/FileUpload.tsx). A file is represented by its name;
    the alert and the `onFileSelect` callback are the two possible
    outcomes of a decision. */
module FileUpload {
  import opened Wrappers

  const ParquetSuffix: string := ".parquet"
  const RejectMessage: string := "请上传 .parquet 格式的文件"

  /** What a drop or a selection leads to: nothing, one call of
      `onFileSelect` with the named file, or one alert with its text. */
  datatype Decision = Ignore | Accept(name: string) | Reject(alert: string)

  /** `String.prototype.endsWith`, comparing code units exactly. */
  predicate EndsWith(s: string, suffix: string)
  {
    |suffix| <= |s| && s[|s| - |suffix|..] == suffix
  }

  /** The rule shared by `handleDrop` and `handleFileInput`: only the first
      file of the list is looked at. */
  function Choose(files: seq<string>): (d: Decision)
    ensures files == [] <==> d == Ignore
    ensures d.Accept? <==> files != [] && EndsWith(files[0], ParquetSuffix)
    ensures d.Accept? ==> d.name == files[0]
    ensures d.Reject? <==> files != [] && !EndsWith(files[0], ParquetSuffix)
    ensures d.Reject? ==> d.alert == RejectMessage
  {
    if |files| > 0 then
      if EndsWith(files[0], ParquetSuffix) then Accept(files[0]) else Reject(RejectMessage)
    else Ignore
  }

  /** Files after the first never change the decision. */
  lemma OnlyFirstFileCounts(first: string, rest1: seq<string>, rest2: seq<string>)
    ensures Choose([first] + rest1) == Choose([first] + rest2)
  {
  }

  /** The comparison is case-sensitive: an upper-case extension is refused. */
  lemma UpperCaseExtensionRejected()
    ensures Choose(["DATA.PARQUET"]) == Reject(RejectMessage)
    ensures Choose(["data.parquet"]) == Accept("data.parquet")
  {
    var upper := "DATA.PARQUET";
    assert upper[4..] == ".PARQUET";
    assert upper[4..][1] != ParquetSuffix[1];
    var lower := "data.parquet";
    assert lower[4..] == ".parquet";
  }

  /** `handleFileInput`: the input's file list may be absent. */
  function FileInput(files: Option<seq<string>>): (d: Decision)
    ensures files.None? ==> d == Ignore
    ensures files.Some? ==> d == Choose(files.value)
  {
    match files
    case None => Ignore
    case Some(list) => Choose(list)
  }

  class UploadZone {
    var isDragging: bool

    constructor ()
      ensures !isDragging
    {
      isDragging := false;
    }

    /** `handleDragIn` */
    method DragEnter()
      modifies this
      ensures isDragging
    {
      isDragging := true;
    }

    /** `handleDragOut` */
    method DragLeave()
      modifies this
      ensures !isDragging
    {
      isDragging := false;
    }

    /** `handleDrag`: only suppresses the browser's default. */
    method DragOver()
      ensures unchanged(this)
    {
    }

    /** `handleDrop`: the highlight goes off and the dropped list is judged. */
    method Drop(files: seq<string>) returns (d: Decision)
      modifies this
      ensures !isDragging
      ensures d == Choose(files)
    {
      isDragging := false;
      d := Choose(files);
    }
  }
}
