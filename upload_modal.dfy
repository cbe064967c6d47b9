/** The upload dialog: drag-and-drop highlighting, the selected file, and the
    simulated upload that hands the selected file to the dashboard. */
module UploadModal {
  import opened Common
  import opened Strings

  datatype FileIcon = ImageIcon | SpreadsheetIcon | FileTextIcon

  /** The icon for a MIME type: images first, then spreadsheets, then text. */
  function GetFileIcon(fileType: string): (icon: FileIcon)
    ensures Includes(fileType, "image") ==> icon == ImageIcon
    ensures icon == SpreadsheetIcon <==>
      !Includes(fileType, "image") && (Includes(fileType, "spreadsheet") || Includes(fileType, "excel"))
    ensures icon == FileTextIcon <==>
      !Includes(fileType, "image") && !Includes(fileType, "spreadsheet") && !Includes(fileType, "excel")
  {
    if Includes(fileType, "image") then ImageIcon
    else if Includes(fileType, "spreadsheet") || Includes(fileType, "excel") then SpreadsheetIcon
    else FileTextIcon
  }

  /** PNG and JPEG images get the image icon. */
  lemma IconOfImages()
    ensures GetFileIcon("image/png") == ImageIcon
    ensures GetFileIcon("image/jpeg") == ImageIcon
  {
    assert OccursAt("image/png", "image", 0);
    assert OccursAt("image/jpeg", "image", 0);
  }

  /** Legacy Excel workbooks get the spreadsheet icon. */
  lemma IconOfXls()
    ensures GetFileIcon("application/vnd.ms-excel") == SpreadsheetIcon
  {
    MissingCharNotIncluded("application/vnd.ms-excel", "image", 3);
    assert OccursAt("application/vnd.ms-excel", "excel", 19);
  }

  /** A PDF gets the text icon. */
  lemma IconOfPdf()
    ensures GetFileIcon("application/pdf") == FileTextIcon
  {
    MissingCharNotIncluded("application/pdf", "image", 1);
    MissingCharNotIncluded("application/pdf", "spreadsheet", 7);
    MissingCharNotIncluded("application/pdf", "excel", 1);
  }

  /** "image" wins over "spreadsheet" when a type mentions both. */
  lemma ImageBeatsSpreadsheet()
    ensures GetFileIcon("image/spreadsheet") == ImageIcon
  {
    assert OccursAt("image/spreadsheet", "image", 0);
  }

  /** The dialog's state. `pendingUploads` holds, oldest first, the files
      captured by upload callbacks that are scheduled and have not yet run. */
  class UploadDialog {
    var dragActive: bool
    var uploadedFile: Option<File>
    var isUploading: bool
    var pendingUploads: seq<File>

    /** At most one upload runs, and the spinner shows exactly while one does. */
    ghost predicate Serialized()
      reads this
    {
      |pendingUploads| <= 1 && (isUploading <==> |pendingUploads| == 1)
    }

    constructor ()
      ensures !dragActive && uploadedFile == None && !isUploading && pendingUploads == []
      ensures Serialized()
    {
      dragActive := false;
      uploadedFile := None;
      isUploading := false;
      pendingUploads := [];
    }

    /** A drag event over the drop zone: entering or moving over it highlights
        it, leaving it removes the highlight, other events change nothing. */
    method HandleDrag(eventType: string)
      modifies this`dragActive
      ensures dragActive ==
        if eventType == "dragenter" || eventType == "dragover" then true
        else if eventType == "dragleave" then false
        else old(dragActive)
    {
      if eventType == "dragenter" || eventType == "dragover" {
        dragActive := true;
      } else if eventType == "dragleave" {
        dragActive := false;
      }
    }

    /** Selecting a file replaces any earlier selection. */
    method HandleFile(file: File)
      modifies this`uploadedFile
      ensures uploadedFile == Some(file)
    {
      uploadedFile := Some(file);
    }

    /** A drop always removes the highlight and selects the first dropped file,
        if any. */
    method HandleDrop(files: seq<File>)
      modifies this`dragActive, this`uploadedFile
      ensures !dragActive
      ensures uploadedFile == if files != [] then Some(files[0]) else old(uploadedFile)
    {
      dragActive := false;
      if files != [] {
        HandleFile(files[0]);
      }
    }

    /** The file picker selects the first chosen file, if any. */
    method HandleChange(files: seq<File>)
      modifies this`uploadedFile
      ensures uploadedFile == if files != [] then Some(files[0]) else old(uploadedFile)
    {
      if files != [] {
        HandleFile(files[0]);
      }
    }

    /** Starting an upload: nothing happens without a selected file; otherwise
        the spinner turns on and a callback capturing the file is scheduled. */
    method HandleUpload()
      modifies this`isUploading, this`pendingUploads
      ensures old(uploadedFile).None? ==> isUploading == old(isUploading) && pendingUploads == old(pendingUploads)
      ensures old(uploadedFile).Some? ==> isUploading && pendingUploads == old(pendingUploads) + [uploadedFile.value]
    {
      if uploadedFile.None? {
        return;
      }
      isUploading := true;
      pendingUploads := pendingUploads + [uploadedFile.value];
    }

    /** The scheduled upload callback: it hands the file it captured to the
        dashboard (the result) and turns the spinner off. */
    method FinishUpload() returns (file: File)
      requires pendingUploads != []
      modifies this`isUploading, this`pendingUploads
      ensures file == old(pendingUploads)[0] && pendingUploads == old(pendingUploads)[1..]
      ensures !isUploading
      ensures old(Serialized()) ==> Serialized()
    {
      file := pendingUploads[0];
      pendingUploads := pendingUploads[1..];
      isUploading := false;
    }

    /** The "Upload & Analyze" button, shown only while a file is selected and
        no upload runs; this keeps uploads one at a time. */
    method PressUpload() returns (started: bool)
      requires Serialized()
      modifies this`isUploading, this`pendingUploads
      ensures Serialized()
      ensures started <==> old(uploadedFile.Some? && !isUploading)
      ensures started ==> isUploading && pendingUploads == [uploadedFile.value]
      ensures !started ==> isUploading == old(isUploading) && pendingUploads == old(pendingUploads)
    {
      started := uploadedFile.Some? && !isUploading;
      if started {
        HandleUpload();
      }
    }

    /** The remove and "Change File" buttons, shown only while no upload runs,
        clear the selection. */
    method ClearSelection()
      modifies this`uploadedFile
      ensures uploadedFile == if old(isUploading) then old(uploadedFile) else None
    {
      if !isUploading {
        uploadedFile := None;
      }
    }
  }
}
