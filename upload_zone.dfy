/** The image intake component: the MIME filter on the first dropped or
    picked file, and the `isDragging` flag the drag handlers maintain. */
module UploadZone {
  import opened Common

  /** A browser `File`, reduced to what the component looks at. */
  datatype File = File(name: string, mimeType: string)

  /** `file.type.startsWith('image/')`. */
  predicate IsImage(f: File) {
    StartsWith(f.mimeType, "image/")
  }

  /** The file handed to `onImageSelect` for a drop or a pick, if any:
      the list is present and non-empty and its first file is an image.
      `files` is None when `dataTransfer.files` / `target.files` is null. */
  function Selection(files: Option<seq<File>>): (r: Option<File>)
    ensures r.Some? ==> files.Some? && |files.value| > 0 && r.value == files.value[0] && IsImage(r.value)
    ensures r.None? ==> files.None? || |files.value| == 0 || !IsImage(files.value[0])
  {
    if files.Some? && |files.value| > 0 && IsImage(files.value[0]) then Some(files.value[0]) else None
  }

  /** A file is accepted exactly when it is the first of the list and its
      MIME type starts with "image/"; the files after the first are never
      looked at, and an empty or missing list selects nothing. */
  lemma SelectionSpec(files: Option<seq<File>>, f: File, rest: seq<File>)
    ensures Selection(files) == Some(f) <==>
      files.Some? && |files.value| > 0 && files.value[0] == f
      && |f.mimeType| >= 6 && f.mimeType[..6] == "image/"
    ensures Selection(Some([f] + rest)) == Selection(Some([f]))
    ensures files == None || files == Some([]) ==> Selection(files) == None
  {
  }

  /** What the component renders. */
  datatype ZoneView =
    | Preview(fileName: string)    // the selected image, its name and the clear button
    | DropArea(highlighted: bool)  // the drop target, highlighted while dragging

  class Zone {
    var isDragging: bool

    constructor ()
      ensures !isDragging
    {
      isDragging := false;
    }

    /** `handleDragIn`: `items` is the length of `dataTransfer.items`, None when
        it is null. The flag is raised only by a non-empty drag and never lowered. */
    method HandleDragIn(items: Option<nat>)
      modifies this
      ensures isDragging == (old(isDragging) || (items.Some? && items.value > 0))
    {
      if items.Some? && items.value > 0 {
        isDragging := true;
      }
    }

    /** `handleDragOut`. */
    method HandleDragOut()
      modifies this
      ensures !isDragging
    {
      isDragging := false;
    }

    /** `handleDrop`: the flag is lowered whether or not a file is accepted;
        `selected` is the file passed to `onImageSelect`, if any. */
    method HandleDrop(files: Option<seq<File>>) returns (selected: Option<File>)
      modifies this
      ensures !isDragging
      ensures selected == Selection(files)
    {
      isDragging := false;
      selected := None;
      if files.Some? && |files.value| > 0 {
        var file := files.value[0];
        if IsImage(file) {
          selected := Some(file);
        }
      }
    }

    /** `handleFileInput`: the same filter as a drop, without touching the flag. */
    method HandleFileInput(files: Option<seq<File>>) returns (selected: Option<File>)
      ensures selected == Selection(files)
    {
      selected := None;
      if files.Some? && |files.value| > 0 {
        var file := files.value[0];
        if IsImage(file) {
          selected := Some(file);
        }
      }
    }

    /** The drop area is shown exactly when no image is selected. */
    function View(selectedImage: Option<File>): (v: ZoneView)
      reads this
      ensures v.DropArea? <==> selectedImage.None?
      ensures v.Preview? ==> v.fileName == selectedImage.value.name
      ensures v.DropArea? ==> v.highlighted == isDragging
    {
      match selectedImage
      case Some(f) => Preview(f.name)
      case None => DropArea(isDragging)
    }
  }
}
