/**
 * `ImageUploadComponent`: the list of images being uploaded, filled from existing URLs and
 * from selected files up to a capacity, and edited by remove, reorder and move-to-front.
 * The browser's image pipeline (`processImage`) is a parameter; `alert` calls are collected.
 */
module ImageUpload {
  import opened Wrappers
  import opened JsArray
  import Strings

  /** A browser `File` as the component reads it. */
  datatype File = File(name: string, size: int, kind: string)

  /** An entry of `images`; `file` is null for images loaded from existing URLs. */
  datatype ImageFile = ImageFile(
    file: Option<File>,
    preview: string,
    name: string,
    size: int,
    kind: string,
    uploaded: bool,
    url: string)

  /** The messages `showError` would `alert`. */
  datatype Alert = TooManyImages(maxFiles: int) | TypeNotAllowed(name: string) | TooLarge(name: string, maxFileSize: int) | ProcessingFailed(name: string)

  const DefaultMaxFiles := 10
  const DefaultMaxFileSize := 5 * 1024 * 1024
  const DefaultAcceptedTypes := ["image/jpeg", "image/png", "image/webp"]

  /** The entry `ngOnInit` creates for the existing image at `index`. */
  function ExistingEntry(url: string, index: nat): (e: ImageFile)
    ensures e.url == url && e.preview == url && e.uploaded && e.file.None?
  {
    ImageFile(None, url, "Imagen " + Strings.NatToString(index + 1), 0, "image/jpeg", true, url)
  }

  /**
   * `validateFile`: `None` when the file is accepted; the type is checked before the size,
   * so a file failing both is reported for its type.
   */
  function FileProblem(file: File, maxFileSize: int, acceptedTypes: seq<string>): (r: Option<Alert>)
    ensures r.None? <==> file.kind in acceptedTypes && file.size <= maxFileSize
    ensures file.kind !in acceptedTypes ==> r == Some(TypeNotAllowed(file.name))
    ensures file.kind in acceptedTypes && file.size > maxFileSize ==> r == Some(TooLarge(file.name, maxFileSize))
  {
    if file.kind !in acceptedTypes then Some(TypeNotAllowed(file.name))
    else if file.size > maxFileSize then Some(TooLarge(file.name, maxFileSize))
    else None
  }

  /** The images and alerts after a run of the `processFiles` loop. */
  datatype Batch = Batch(images: seq<ImageFile>, alerts: seq<Alert>)

  /**
   * The `processFiles` loop from a given point: stop with one alert once the list is full, skip
   * a rejected file with its alert, append a processed image, or alert when processing fails.
   */
  function Run(images: seq<ImageFile>, alerts: seq<Alert>, files: seq<File>, maxFiles: int, maxFileSize: int,
               acceptedTypes: seq<string>, process: File -> Option<ImageFile>): (r: Batch)
    decreases |files|
    ensures |images| <= |r.images| && |alerts| <= |r.alerts| && r.alerts[..|alerts|] == alerts
    ensures (|r.images| - |images|) + (|r.alerts| - |alerts|) <= |files|
  {
    if |files| == 0 then Batch(images, alerts)
    else if |images| >= maxFiles then Batch(images, alerts + [TooManyImages(maxFiles)])
    else
      var problem := FileProblem(files[0], maxFileSize, acceptedTypes);
      if problem.Some? then Run(images, alerts + [problem.value], files[1..], maxFiles, maxFileSize, acceptedTypes, process)
      else
        match process(files[0])
        case Some(processed) => Run(images + [processed], alerts, files[1..], maxFiles, maxFileSize, acceptedTypes, process)
        case None => Run(images, alerts + [ProcessingFailed(files[0].name)], files[1..], maxFiles, maxFileSize, acceptedTypes, process)
  }

  /** `image` is what `process` made of an accepted file of `files`. */
  predicate ProcessedFrom(image: ImageFile, files: seq<File>, maxFileSize: int, acceptedTypes: seq<string>,
                          process: File -> Option<ImageFile>) {
    exists f :: f in files && FileProblem(f, maxFileSize, acceptedTypes).None? && process(f) == Some(image)
  }

  /**
   * The loop only appends, never past `maxFiles` when it starts within it, and everything it
   * appends is the processed form of an accepted file.
   */
  lemma {:induction false} RunBounded(images: seq<ImageFile>, alerts: seq<Alert>, files: seq<File>, maxFiles: int,
                                      maxFileSize: int, acceptedTypes: seq<string>, process: File -> Option<ImageFile>)
    decreases |files|
    ensures var b := Run(images, alerts, files, maxFiles, maxFileSize, acceptedTypes, process);
      |images| <= |b.images| && b.images[..|images|] == images
      && (|images| <= maxFiles ==> |b.images| <= maxFiles)
      && (|images| >= maxFiles ==> b.images == images)
      && |b.images| - |images| <= |files|
      && forall k :: |images| <= k < |b.images| ==> ProcessedFrom(b.images[k], files, maxFileSize, acceptedTypes, process)
  {
    if |files| > 0 && |images| < maxFiles {
      var rest := files[1..];
      var problem := FileProblem(files[0], maxFileSize, acceptedTypes);
      var b := Run(images, alerts, files, maxFiles, maxFileSize, acceptedTypes, process);
      var added := problem.None? && process(files[0]).Some?;
      var nextImages := if added then images + [process(files[0]).value] else images;
      var nextAlerts := if problem.Some? then alerts + [problem.value]
                        else if added then alerts else alerts + [ProcessingFailed(files[0].name)];
      assert b == Run(nextImages, nextAlerts, rest, maxFiles, maxFileSize, acceptedTypes, process);
      RunBounded(nextImages, nextAlerts, rest, maxFiles, maxFileSize, acceptedTypes, process);
      if added {
        assert b.images[|images|] == process(files[0]).value by {
          assert b.images[..|images| + 1] == nextImages;
        }
        assert b.images[..|images|] == images by {
          assert b.images[..|images|] == (b.images[..|images| + 1])[..|images|];
        }
      }
      forall k | |images| <= k < |b.images|
        ensures ProcessedFrom(b.images[k], files, maxFileSize, acceptedTypes, process)
      {
        if !(added && k == |images|) {
          assert ProcessedFrom(b.images[k], rest, maxFileSize, acceptedTypes, process);
          var f :| f in rest && FileProblem(f, maxFileSize, acceptedTypes).None? && process(f) == Some(b.images[k]);
          assert f in files;
        }
      }
    }
  }

  /** An accepted file that processes is appended whenever there is room. */
  lemma RoomAndValidMeansAdded(images: seq<ImageFile>, file: File, maxFiles: int, maxFileSize: int,
                               acceptedTypes: seq<string>, process: File -> Option<ImageFile>)
    requires |images| < maxFiles
    requires FileProblem(file, maxFileSize, acceptedTypes).None? && process(file).Some?
    ensures Run(images, [], [file], maxFiles, maxFileSize, acceptedTypes, process) == Batch(images + [process(file).value], [])
  {
  }

  /** `images.splice(index, 1)` for an index in range removes exactly that entry. */
  lemma RemoveInRange(images: seq<ImageFile>, index: int)
    requires 0 <= index < |images|
    ensures Splice(images, index, 1, []) == images[..index] + images[index + 1..]
    ensures |Splice(images, index, 1, [])| == |images| - 1
  {
  }

  /** What `reorderImages` leaves: the image taken out at `fromIndex` and put back at `toIndex`. */
  function Reordered(images: seq<ImageFile>, fromIndex: int, toIndex: int): (r: seq<ImageFile>)
    requires 0 <= fromIndex < |images|
    ensures |r| == |images|
    ensures fromIndex == toIndex ==> r == images
  {
    if fromIndex == toIndex then images
    else Splice(Splice(images, fromIndex, 1, []), toIndex, 0, [images[fromIndex]])
  }

  /** Taking one entry out leaves the others: the multiset loses exactly that entry. */
  lemma SpliceOutCount<T>(s: seq<T>, index: int)
    requires 0 <= index < |s|
    ensures multiset(Splice(s, index, 1, [])) + multiset{s[index]} == multiset(s)
  {
    assert Splice(s, index, 1, []) == s[..index] + s[index + 1..];
    assert s == s[..index] + [s[index]] + s[index + 1..];
  }

  /** Putting one entry in adds exactly that entry, at the target when the target is in range. */
  lemma SpliceInCount<T>(s: seq<T>, index: int, x: T)
    ensures multiset(Splice(s, index, 0, [x])) == multiset(s) + multiset{x}
    ensures 0 <= index <= |s| ==> Splice(s, index, 0, [x])[index] == x
  {
    var k := SpliceStart(index, |s|);
    assert Splice(s, index, 0, [x]) == s[..k] + [x] + s[k..];
    assert s == s[..k] + s[k..];
  }

  /** Reordering is a permutation, and with a target in range the moved image lands there. */
  lemma {:induction false} ReorderIsPermutation(images: seq<ImageFile>, fromIndex: int, toIndex: int)
    requires 0 <= fromIndex < |images|
    ensures multiset(Reordered(images, fromIndex, toIndex)) == multiset(images)
    ensures 0 <= toIndex < |images| ==> Reordered(images, fromIndex, toIndex)[toIndex] == images[fromIndex]
    ensures fromIndex == toIndex ==> Reordered(images, fromIndex, toIndex) == images
  {
    if fromIndex != toIndex {
      var without := Splice(images, fromIndex, 1, []);
      SpliceOutCount(images, fromIndex);
      SpliceInCount(without, toIndex, images[fromIndex]);
    }
  }

  /** What `setMainImage` leaves: the image at `index` moved to the front, the rest in order. */
  function MovedToFront(images: seq<ImageFile>, index: int): (r: seq<ImageFile>)
    requires 0 <= index < |images|
    ensures |r| == |images| && r[0] == images[index]
    ensures index == 0 ==> r == images
  {
    if index == 0 then images
    else [images[index]] + Splice(images, index, 1, [])
  }

  /** Moving to the front is a permutation that puts the chosen image first and keeps the others' order. */
  lemma {:induction false} MoveToFrontIsPermutation(images: seq<ImageFile>, index: int)
    requires 0 <= index < |images|
    ensures var r := MovedToFront(images, index);
      multiset(r) == multiset(images) && r[0] == images[index]
      && r[1..] == images[..index] + images[index + 1..]
  {
    if index != 0 {
      assert images == images[..index] + [images[index]] + images[index + 1..];
    } else {
      assert images == [images[0]] + images[1..];
    }
  }

  class ImageUploadComponent {
    const maxFiles: int
    const maxFileSize: int
    const acceptedTypes: seq<string>
    const existingImages: seq<string>
    var images: seq<ImageFile>
    var loading: bool

    /** The component with its inputs bound and no images yet. */
    constructor(maxFiles: int, maxFileSize: int, acceptedTypes: seq<string>, existingImages: seq<string>)
      ensures this.maxFiles == maxFiles && this.maxFileSize == maxFileSize
      ensures this.acceptedTypes == acceptedTypes && this.existingImages == existingImages
      ensures images == [] && !loading
    {
      this.maxFiles := maxFiles;
      this.maxFileSize := maxFileSize;
      this.acceptedTypes := acceptedTypes;
      this.existingImages := existingImages;
      images := [];
      loading := false;
    }

    /** `ngOnInit`: one uploaded entry per existing URL, in order, after whatever is there. */
    method NgOnInit()
      modifies this
      ensures |images| == |old(images)| + |existingImages| && images[..|old(images)|] == old(images)
      ensures forall k :: 0 <= k < |existingImages| ==> images[|old(images)| + k] == ExistingEntry(existingImages[k], k)
      ensures loading == old(loading)
    {
      if |existingImages| > 0 {
        var index := 0;
        while index < |existingImages|
          invariant 0 <= index <= |existingImages|
          invariant |images| == |old(images)| + index && images[..|old(images)|] == old(images)
          invariant forall k :: 0 <= k < index ==> images[|old(images)| + k] == ExistingEntry(existingImages[k], k)
          invariant loading == old(loading)
        {
          images := images + [ExistingEntry(existingImages[index], index)];
          index := index + 1;
        }
      }
    }

    function ValidateFile(file: File): (problem: Option<Alert>)
      reads this
      ensures problem == FileProblem(file, maxFileSize, acceptedTypes)
    {
      FileProblem(file, maxFileSize, acceptedTypes)
    }

    /** `processFiles`, with `processImage` given as `process` and the alerts returned. */
    method ProcessFiles(files: seq<File>, process: File -> Option<ImageFile>) returns (alerts: seq<Alert>)
      modifies this
      ensures Batch(images, alerts) == Run(old(images), [], files, maxFiles, maxFileSize, acceptedTypes, process)
      ensures !loading
    {
      loading := true;
      alerts := [];
      var i := 0;
      while i < |files|
        invariant 0 <= i <= |files|
        invariant Run(images, alerts, files[i..], maxFiles, maxFileSize, acceptedTypes, process)
               == Run(old(images), [], files, maxFiles, maxFileSize, acceptedTypes, process)
      {
        var file := files[i];
        assert files[i..][0] == file && files[i..][1..] == files[i + 1..];
        if |images| >= maxFiles {
          alerts := alerts + [TooManyImages(maxFiles)];
          break;
        }
        var problem := ValidateFile(file);
        if problem.Some? {
          alerts := alerts + [problem.value];
          i := i + 1;
          continue;
        }
        var processed := process(file);
        if processed.Some? {
          images := images + [processed.value];
        } else {
          alerts := alerts + [ProcessingFailed(file.name)];
        }
        i := i + 1;
      }
      loading := false;
    }

    method RemoveImage(index: int)
      modifies this
      ensures images == Splice(old(images), index, 1, [])
      ensures loading == old(loading)
    {
      images := Splice(images, index, 1, []);
    }

    method ReorderImages(fromIndex: int, toIndex: int)
      requires 0 <= fromIndex < |images|
      modifies this
      ensures images == Reordered(old(images), fromIndex, toIndex)
      ensures loading == old(loading)
    {
      if fromIndex == toIndex {
        return;
      }
      var image := images[fromIndex];
      images := Splice(images, fromIndex, 1, []);
      images := Splice(images, toIndex, 0, [image]);
    }

    method SetMainImage(index: int)
      requires 0 <= index < |images|
      modifies this
      ensures images == MovedToFront(old(images), index)
      ensures loading == old(loading)
    {
      if index == 0 {
        return;
      }
      var image := images[index];
      images := Splice(images, index, 1, []);
      images := [image] + images;
    }

    method ClearImages()
      modifies this
      ensures images == [] && loading == old(loading)
    {
      images := [];
    }

    function GetMainImage(): (main: Option<ImageFile>)
      reads this
      ensures main.None? <==> images == []
      ensures main.Some? ==> main.value == images[0]
    {
      if |images| > 0 then Some(images[0]) else None
    }

    /** `hasImages`: true exactly when there is a main image to show. */
    predicate HasImages(): (r: bool)
      reads this
      ensures r <==> GetMainImage().Some?
    {
      |images| > 0
    }

    /** `canAddMore`: there is room left under `maxFiles`, so at least one more file fits. */
    predicate CanAddMore(): (r: bool)
      reads this
      ensures r <==> maxFiles - |images| > 0
    {
      |images| < maxFiles
    }

    /** While more can be added, an accepted file that processes is appended by `processFiles`. */
    lemma CanAddMoreAdmitsNext(file: File, process: File -> Option<ImageFile>)
      requires CanAddMore() && ValidateFile(file).None? && process(file).Some?
      ensures Run(images, [], [file], maxFiles, maxFileSize, acceptedTypes, process).images == images + [process(file).value]
    {
    }

    /** Once full, `processFiles` adds nothing and alerts once. */
    lemma FullAddsNothing(files: seq<File>, process: File -> Option<ImageFile>)
      requires !CanAddMore() && |files| > 0
      ensures Run(images, [], files, maxFiles, maxFileSize, acceptedTypes, process) == Batch(images, [TooManyImages(maxFiles)])
    {
    }
  }
}
