/** The image edit window: the name an edited copy is saved under, the
    search for a free path, and the zoom and pan of the preview. The path
    helpers (`basename`, `extname`, `join`), the existence check and the
    clock are inputs. */
module EditWindow {
  import opened Geometry
  import Strings

  const DefaultExtension: string := ".png"
  const EditedInfix: string := "_edited_"
  const MaxAttempts: nat := 100

  // ---- The edited file's name ----------------------------------------------

  /** `extWithDot`: an extension with its leading dot, `.png` for none. */
  function ExtWithDot(extension: string): (e: string)
    ensures |e| > 0 && e[0] == '.'
    ensures extension == "" ==> e == DefaultExtension
    ensures extension != "" ==> e == extension || e == "." + extension
  {
    if extension == "" then DefaultExtension
    else if extension[0] == '.' then extension
    else "." + extension
  }

  /** An extension that already has its dot is kept, so the rule is
      idempotent. */
  lemma ExtWithDotIdempotent(extension: string)
    ensures ExtWithDot(ExtWithDot(extension)) == ExtWithDot(extension)
    ensures |extension| > 0 && extension[0] == '.' ==> ExtWithDot(extension) == extension
  {
  }

  /** `lastIndexOf`: the last position of `c`, or -1. */
  function LastIndexOf(s: string, c: char): (r: int)
    ensures -1 <= r < |s|
    ensures r >= 0 ==> s[r] == c
    ensures forall k :: r < k < |s| ==> s[k] != c
    decreases |s|
  {
    if s == [] then -1
    else if s[|s| - 1] == c then |s| - 1
    else LastIndexOf(s[..|s| - 1], c)
  }

  /** `nameWithoutExt`: the part before the last dot when that dot is not
      the first character, otherwise the whole name. */
  function NameWithoutExt(filename: string): string {
    var i := LastIndexOf(filename, '.');
    if i > 0 then filename[..i] else filename
  }

  /** The base name is a prefix of the file name; it is shorter exactly
      when a dot follows the first character, and then the rest is that
      last dot and an extension without dots. */
  lemma NameWithoutExtSpec(filename: string)
    ensures var n := NameWithoutExt(filename);
      && n <= filename
      && (n != filename <==> exists k :: 0 < k < |filename| && filename[k] == '.')
      && (n != filename ==>
            && |n| > 0 && filename[|n|] == '.'
            && forall k :: |n| < k < |filename| ==> filename[k] != '.')
  {
    var i := LastIndexOf(filename, '.');
    if i <= 0 {
      forall k | 0 < k < |filename|
        ensures filename[k] != '.'
      {
      }
    }
  }

  function Dashed(c: char): char {
    if c == ':' || c == '.' then '-' else c
  }

  /** `toISOString().replace(/[:.]/g, "-").slice(0, -5)`. */
  function Timestamp(iso: string): string {
    var replaced := seq(|iso|, k requires 0 <= k < |iso| => Dashed(iso[k]));
    replaced[..if |iso| >= 5 then |iso| - 5 else 0]
  }

  /** The timestamp drops the last five characters and holds no ':' or
      '.'; for a standard 24-character ISO instant it is the date and time
      to the second, `YYYY-MM-DDTHH-MM-SS`. */
  lemma TimestampSpec(iso: string)
    ensures var ts := Timestamp(iso);
      && |ts| == (if |iso| >= 5 then |iso| - 5 else 0)
      && (forall k :: 0 <= k < |ts| ==> ts[k] != ':' && ts[k] != '.')
      && (forall k :: 0 <= k < |ts| ==> ts[k] == iso[k] || iso[k] == ':' || iso[k] == '.')
      && (|iso| == 24 ==> ts == seq(19, k requires 0 <= k < 19 => Dashed(iso[k])))
  {
  }

  datatype FilenameParts = FilenameParts(nameWithoutExt: string, extWithDot: string, timestamp: string)

  /** `generateFilename`; `basename`, `extname` and the current ISO time
      are given. */
  function GenerateFilename(originalFilename: string, extension: string, isoNow: string): FilenameParts {
    FilenameParts(NameWithoutExt(originalFilename), ExtWithDot(extension), Timestamp(isoNow))
  }

  /** `${nameWithoutExt}_edited_${timestamp}${extWithDot}`. */
  function EditedFilename(parts: FilenameParts): string {
    parts.nameWithoutExt + EditedInfix + parts.timestamp + parts.extWithDot
  }

  /** The edited name keeps the extension: for an extension with one dot,
      its dot is the name's last, so the edited name's own base name is
      the original base name, the infix and the timestamp. */
  lemma EditedFilenameKeepsExtension(originalFilename: string, extension: string, isoNow: string)
    requires forall k :: 0 <= k < |extension| ==> extension[k] != '.' || k == 0
    ensures var parts := GenerateFilename(originalFilename, extension, isoNow);
      NameWithoutExt(EditedFilename(parts)) == parts.nameWithoutExt + EditedInfix + parts.timestamp
  {
    var parts := GenerateFilename(originalFilename, extension, isoNow);
    var stem := parts.nameWithoutExt + EditedInfix + parts.timestamp;
    var ext := parts.extWithDot;
    var f := EditedFilename(parts);
    TimestampSpec(isoNow);
    assert f == stem + ext;
    assert forall k :: 1 <= k < |ext| ==> ext[k] != '.';
    assert f[|stem|] == '.';
    assert forall k :: |stem| < k < |f| ==> f[k] == ext[k - |stem|];
    assert |stem| > 0 by {
      assert |EditedInfix| == 8;
    }
    var i := LastIndexOf(f, '.');
    assert i == |stem|;
    assert f[..i] == stem;
  }

  // ---- A free path -----------------------------------------------------------

  /** The result of `exists(path)`: an answer, or a thrown error. */
  datatype Check = Exists(present: bool) | Throws

  /** A path counts as taken only when the check answers that it exists;
      a failed check counts as free. */
  predicate Taken(c: Check) {
    c == Exists(true)
  }

  datatype Checked = Checked(path: string, taken: bool)

  /** The i-th numbered candidate. */
  function Candidate(join: (string, string) -> string, directory: string, baseName: string,
                     timestamp: string, extension: string, i: nat): string
  {
    join(directory, baseName + EditedInfix + timestamp + "_" + Strings.NatToString(i) + extension)
  }

  /** `findUniqueFilePath`: the initial path when it is free; otherwise the
      first free numbered candidate among 1..100, or the 100th when all
      are taken. */
  method FindUniqueFilePath(directory: string, baseName: string, timestamp: string,
                            extension: string, initialPath: string,
                            join: (string, string) -> string, fileExists: string -> Check)
    returns (path: string)
    ensures !Taken(fileExists(initialPath)) ==> path == initialPath
    ensures Taken(fileExists(initialPath)) ==>
      var c := (i: nat) => Candidate(join, directory, baseName, timestamp, extension, i);
      || (exists i :: 1 <= i <= MaxAttempts && path == c(i) && !Taken(fileExists(c(i))) &&
            forall j :: 1 <= j < i ==> Taken(fileExists(c(j))))
      || ((forall j :: 1 <= j <= MaxAttempts ==> Taken(fileExists(c(j)))) && path == c(MaxAttempts))
  {
    var initial := fileExists(initialPath);
    if initial.Throws? {
      return initialPath;
    }
    if !initial.present {
      return initialPath;
    }
    ghost var c := (i: nat) => Candidate(join, directory, baseName, timestamp, extension, i);
    var results: seq<Checked> := [];
    for i := 1 to MaxAttempts + 1
      invariant |results| == i - 1
      invariant forall k :: 0 <= k < |results| ==>
        results[k] == Checked(c(k + 1), Taken(fileExists(c(k + 1))))
    {
      var numberedFilename := baseName + EditedInfix + timestamp + "_" + Strings.NatToString(i) + extension;
      var numberedPath := join(directory, numberedFilename);
      var answer := fileExists(numberedPath);
      var taken := match answer case Exists(b) => b case Throws => false;
      results := results + [Checked(numberedPath, taken)];
    }
    var k := 0;
    while k < |results| && results[k].taken
      invariant 0 <= k <= |results|
      invariant forall j :: 0 <= j < k ==> results[j].taken
    {
      k := k + 1;
    }
    if k < |results| {
      path := results[k].path;
      assert forall j :: 1 <= j < k + 1 ==> Taken(fileExists(c(j))) by {
        forall j | 1 <= j < k + 1
          ensures Taken(fileExists(c(j)))
        {
          assert results[j - 1].taken;
        }
      }
      return;
    }
    assert forall j :: 1 <= j <= MaxAttempts ==> Taken(fileExists(c(j))) by {
      forall j | 1 <= j <= MaxAttempts
        ensures Taken(fileExists(c(j)))
      {
        assert results[j - 1].taken;
      }
    }
    path := results[|results| - 1].path;
  }

  // ---- Zoom and pan ----------------------------------------------------------

  const MinZoom: real := 0.1
  const MaxZoom: real := 10.0

  /** The wheel step: out by 0.9 for a positive `deltaY`, in by 1.1
      otherwise, clamped to [0.1, 10]. */
  function ZoomAfterWheel(zoom: real, deltaY: real): (z: real)
    ensures MinZoom <= z <= MaxZoom
  {
    var delta := if deltaY > 0.0 then 0.9 else 1.1;
    var scaled := zoom * delta;
    var capped := if scaled < MaxZoom then scaled else MaxZoom;
    if capped > MinZoom then capped else MinZoom
  }

  /** From a zoom in range, scrolling down never zooms in and scrolling up
      never zooms out; away from the bounds the step is exact. */
  lemma ZoomDirection(zoom: real, deltaY: real)
    requires MinZoom <= zoom <= MaxZoom
    ensures deltaY > 0.0 ==> ZoomAfterWheel(zoom, deltaY) <= zoom
    ensures deltaY <= 0.0 ==> ZoomAfterWheel(zoom, deltaY) >= zoom
    ensures deltaY > 0.0 && zoom * 0.9 >= MinZoom ==> ZoomAfterWheel(zoom, deltaY) == zoom * 0.9
    ensures deltaY <= 0.0 && zoom * 1.1 <= MaxZoom ==> ZoomAfterWheel(zoom, deltaY) == zoom * 1.1
  {
  }

  /** The image point shown under the pointer. */
  function ImagePoint(mouse: Point, centre: Point, pan: Point, zoom: real): Point
    requires zoom != 0.0
  {
    Point((mouse.x - centre.x - pan.x) / zoom, (mouse.y - centre.y - pan.y) / zoom)
  }

  function PanAfterZoom(mouse: Point, centre: Point, pan: Point, zoom: real, newZoom: real): Point
    requires zoom != 0.0
  {
    var image := ImagePoint(mouse, centre, pan, zoom);
    Point(mouse.x - centre.x - image.x * newZoom, mouse.y - centre.y - image.y * newZoom)
  }

  /** Zooming keeps the image point under the pointer where it was, and
      a zoom that does not change leaves the pan alone. */
  lemma ZoomKeepsAnchor(mouse: Point, centre: Point, pan: Point, zoom: real, newZoom: real)
    requires zoom != 0.0 && newZoom != 0.0
    ensures ImagePoint(mouse, centre, PanAfterZoom(mouse, centre, pan, zoom, newZoom), newZoom)
            == ImagePoint(mouse, centre, pan, zoom)
    ensures newZoom == zoom ==> PanAfterZoom(mouse, centre, pan, zoom, newZoom) == pan
  {
    var image := ImagePoint(mouse, centre, pan, zoom);
    DivMul(mouse.x - centre.x - pan.x, zoom);
    DivMul(mouse.y - centre.y - pan.y, zoom);
    MulDiv(image.x, newZoom);
    MulDiv(image.y, newZoom);
  }

  lemma DivMul(a: real, z: real)
    requires z != 0.0
    ensures a / z * z == a
  {
  }

  lemma MulDiv(a: real, z: real)
    requires z != 0.0
    ensures a * z / z == a
  {
  }

  /** Dragging: the pan follows the pointer by exactly the pointer's
      travel since the press. */
  function DragPan(dragStart: Point, client: Point): Point {
    Point(client.x - dragStart.x, client.y - dragStart.y)
  }

  lemma DragFollowsPointer(pan: Point, down: Point, client: Point)
    ensures var start := Point(down.x - pan.x, down.y - pan.y);
      DragPan(start, client) == Point(pan.x + (client.x - down.x), pan.y + (client.y - down.y))
    ensures DragPan(Point(down.x - pan.x, down.y - pan.y), down) == pan
  {
  }

  class EditView {
    var zoom: real
    var pan: Point
    var isDragging: bool
    var dragStart: Point

    ghost predicate Valid()
      reads this
    {
      MinZoom <= zoom <= MaxZoom
    }

    constructor ()
      ensures Valid() && zoom == 1.0 && pan == Point(0.0, 0.0)
      ensures !isDragging && dragStart == Point(0.0, 0.0)
    {
      zoom, pan, isDragging, dragStart := 1.0, Point(0.0, 0.0), false, Point(0.0, 0.0);
    }

    /** `handleWheel`; `ready` is "an image, its element and the container
        exist", `mouse` the pointer within the container. */
    method Wheel(ready: bool, deltaY: real, mouse: Point, containerWidth: real, containerHeight: real)
      requires Valid()
      modifies this`zoom, this`pan
      ensures Valid()
      ensures !ready ==> zoom == old(zoom) && pan == old(pan)
      ensures ready ==>
        && zoom == ZoomAfterWheel(old(zoom), deltaY)
        && pan == PanAfterZoom(mouse, Point(containerWidth / 2.0, containerHeight / 2.0), old(pan), old(zoom), zoom)
    {
      if !ready {
        return;
      }
      var delta := if deltaY > 0.0 then 0.9 else 1.1;
      var newZoom := Max(MinZoom, Min(MaxZoom, zoom * delta));
      assert newZoom == ZoomAfterWheel(zoom, deltaY);
      var centreX := containerWidth / 2.0;
      var centreY := containerHeight / 2.0;
      var imageX := (mouse.x - centreX - pan.x) / zoom;
      var imageY := (mouse.y - centreY - pan.y) / zoom;
      var newPanX := mouse.x - centreX - imageX * newZoom;
      var newPanY := mouse.y - centreY - imageY * newZoom;
      assert Point(newPanX, newPanY) == PanAfterZoom(mouse, Point(centreX, centreY), pan, zoom, newZoom);
      zoom := newZoom;
      pan := Point(newPanX, newPanY);
    }

    /** `handleMouseDown`: only the primary button starts a drag. */
    method MouseDown(button: int, client: Point)
      modifies this`isDragging, this`dragStart
      ensures button != 0 ==> isDragging == old(isDragging) && dragStart == old(dragStart)
      ensures button == 0 ==> isDragging && dragStart == Point(client.x - pan.x, client.y - pan.y)
    {
      if button != 0 {
        return;
      }
      isDragging := true;
      dragStart := Point(client.x - pan.x, client.y - pan.y);
    }

    method MouseMove(client: Point)
      modifies this`pan
      ensures !isDragging ==> pan == old(pan)
      ensures isDragging ==> pan == DragPan(dragStart, client)
    {
      if !isDragging {
        return;
      }
      pan := Point(client.x - dragStart.x, client.y - dragStart.y);
    }

    method MouseUp()
      modifies this`isDragging
      ensures !isDragging
    {
      isDragging := false;
    }

    /** `handleDoubleClick` and `resetZoom`. */
    method ResetZoom()
      modifies this`zoom, this`pan
      ensures Valid() && zoom == 1.0 && pan == Point(0.0, 0.0)
    {
      zoom := 1.0;
      pan := Point(0.0, 0.0);
    }
  }

  function Max(a: real, b: real): real { if a >= b then a else b }
}
