/** The dataset upload form: a file picked or dropped is accepted by its MIME type or its
    extension, the dataset name is filled in from the file name when empty, and the upload
    button is guarded. */
module UploadForm {
  import opened Lists
  import opened Text

  /** The part of a browser `File` the form looks at. */
  datatype FileInfo = FileInfo(name: string, mimeType: string)

  datatype UploadStatus = Idle | Success | Failure

  /** A CSV or JSON file, by its type or by the end of its name. */
  predicate Accepts(f: FileInfo)
  {
    f.mimeType == "text/csv" || EndsWith(f.name, ".csv") ||
    f.mimeType == "application/json" || EndsWith(f.name, ".json")
  }

  /** Any file whose name ends in ".csv" or ".json" is accepted, whatever its type. */
  lemma AcceptsByExtension(base: string, mimeType: string)
    ensures Accepts(FileInfo(base + ".csv", mimeType))
    ensures Accepts(FileInfo(base + ".json", mimeType))
  {
  }

  /** A file with another type is rejected unless its name ends in ".csv" or ".json". */
  lemma RejectsOtherFiles(f: FileInfo)
    requires f.mimeType != "text/csv" && f.mimeType != "application/json"
    requires forall p :: p + ".csv" != f.name && p + ".json" != f.name
    ensures !Accepts(f)
  {
  }

  /** `name.split(".")[0].replace(/_/g, " ")`: the name up to its first dot, with every
      underscore turned into a space. */
  function DerivedName(name: string): (r: string)
    ensures |r| <= |name|
    ensures forall i :: 0 <= i < |r| ==> r[i] == if name[i] == '_' then ' ' else name[i]
    ensures '.' !in name[..|r|] && '_' !in r
    ensures |r| < |name| ==> name[|r|] == '.'
  {
    ReplaceChar(TextBefore(name, '.'), '_', ' ')
  }

  /** A base name without dots or underscores comes back unchanged from "<base>.<extension>". */
  lemma DerivedNameOfPlainBase(base: string, extension: string)
    requires '.' !in base && '_' !in base
    ensures DerivedName(base + "." + extension) == base
  {
    var r := DerivedName(base + "." + extension);
    assert (base + "." + extension)[|base|] == '.';
    assert |r| == |base|;
    assert forall i :: 0 <= i < |r| ==> r[i] == base[i];
  }

  /** A file name that starts with a dot gives an empty name, which leaves the name unset. */
  lemma DerivedNameOfDotFile(extension: string)
    ensures DerivedName("." + extension) == ""
  {
  }

  /** `handleDrag`: entering or moving over the drop zone activates it, leaving deactivates it,
      other events change nothing. */
  function DragActiveAfter(eventType: string, active: bool): (r: bool)
    ensures eventType == "dragenter" || eventType == "dragover" ==> r
    ensures eventType == "dragleave" ==> !r
    ensures eventType != "dragenter" && eventType != "dragover" && eventType != "dragleave" ==> r == active
  {
    if eventType == "dragenter" || eventType == "dragover" then true
    else if eventType == "dragleave" then false
    else active
  }

  /** The upload button is disabled without a file or a name, while uploading and after a
      successful upload. */
  predicate UploadButtonDisabled(file: Option<FileInfo>, name: string, isUploading: bool, status: UploadStatus)
  {
    file == None || name == "" || isUploading || status == Success
  }

  /** The button is disabled whenever `handleUpload` would do nothing, and once an upload has
      started or succeeded it stays disabled whatever file or name is chosen. */
  lemma DisabledCoversGuard(file: Option<FileInfo>, name: string, isUploading: bool, status: UploadStatus)
    ensures file == None || name == "" ==> UploadButtonDisabled(file, name, isUploading, status)
    ensures isUploading || status == Success ==>
              forall f, n :: UploadButtonDisabled(f, n, isUploading, status)
    ensures !UploadButtonDisabled(file, name, isUploading, status) ==>
              file.Some? && name != "" && !isUploading && status != Success
  {
  }

  /** The form's state. */
  class Form {
    var file: Option<FileInfo>
    var datasetName: string
    var description: string
    var isUploading: bool
    var uploadStatus: UploadStatus
    var dragActive: bool

    constructor ()
      ensures file == None && datasetName == "" && description == ""
      ensures !isUploading && uploadStatus == Idle && !dragActive
    {
      file := None;
      datasetName := "";
      description := "";
      isUploading := false;
      uploadStatus := Idle;
      dragActive := false;
    }

    predicate UploadDisabled()
      reads this
    {
      UploadButtonDisabled(file, datasetName, isUploading, uploadStatus)
    }

    /** `handleFileSelect`. A rejected file changes nothing; an accepted one becomes the file,
        and names the dataset when no name was typed yet. */
    method SelectFile(f: FileInfo)
      modifies this`file, this`datasetName
      ensures Accepts(f) ==> file == Some(f)
      ensures Accepts(f) && old(datasetName) == "" ==> datasetName == DerivedName(f.name)
      ensures !Accepts(f) || old(datasetName) != "" ==> datasetName == old(datasetName)
      ensures !Accepts(f) ==> file == old(file)
    {
      if Accepts(f) {
        file := Some(f);
        if datasetName == "" {
          datasetName := DerivedName(f.name);
        }
      }
    }

    /** `handleFileChange`: the first chosen file, if any. */
    method ChooseFiles(files: seq<FileInfo>)
      modifies this`file, this`datasetName
      ensures files == [] ==> file == old(file) && datasetName == old(datasetName)
      ensures files != [] && Accepts(files[0]) ==> file == Some(files[0])
      ensures files != [] && !Accepts(files[0]) ==> file == old(file) && datasetName == old(datasetName)
      ensures files != [] && Accepts(files[0]) && old(datasetName) == "" ==> datasetName == DerivedName(files[0].name)
      ensures files != [] && Accepts(files[0]) && old(datasetName) != "" ==> datasetName == old(datasetName)
    {
      if files != [] {
        SelectFile(files[0]);
      }
    }

    /** `handleDrop`: the drop zone is deactivated and the first dropped file, if any, is
        selected. */
    method Drop(files: seq<FileInfo>)
      modifies this`file, this`datasetName, this`dragActive
      ensures !dragActive
      ensures files == [] ==> file == old(file) && datasetName == old(datasetName)
      ensures files != [] && Accepts(files[0]) ==> file == Some(files[0])
      ensures files != [] && !Accepts(files[0]) ==> file == old(file) && datasetName == old(datasetName)
      ensures files != [] && Accepts(files[0]) && old(datasetName) == "" ==> datasetName == DerivedName(files[0].name)
      ensures files != [] && Accepts(files[0]) && old(datasetName) != "" ==> datasetName == old(datasetName)
    {
      dragActive := false;
      ChooseFiles(files);
    }

    method Drag(eventType: string)
      modifies this`dragActive
      ensures dragActive == DragActiveAfter(eventType, old(dragActive))
    {
      dragActive := DragActiveAfter(eventType, dragActive);
    }

    method SetName(name: string)
      modifies this`datasetName
      ensures datasetName == name
    {
      datasetName := name;
    }

    /** `handleUpload`: nothing happens without a file and a name; otherwise the upload starts.
        Whenever the button is enabled, pressing it starts the upload. */
    method Upload()
      modifies this`isUploading
      ensures old(file) == None || old(datasetName) == "" ==> isUploading == old(isUploading)
      ensures old(file) != None && old(datasetName) != "" ==> isUploading
      ensures !old(UploadDisabled()) ==> isUploading && UploadDisabled()
    {
      if file == None || datasetName == "" {
        return;
      }
      isUploading := true;
    }
  }
}
