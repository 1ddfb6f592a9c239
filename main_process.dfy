/**
 * The main-process side of src/main/index.ts: the two placement formulas
 * (`centerWindow`, `positionWindowBottomRight`), the main window as an
 * object with size, position and full-screen fields, and the three IPC
 * handlers `resize-window`, `set-full-screen` and `upload-video`.
 */
module MainProcess {
  import opened Wrappers

  /** The primary display's usable area, in integer screen coordinates. */
  datatype WorkArea = WorkArea(x: int, y: int, width: int, height: int)

  /** JavaScript's `Math.round`: the nearest integer, halves rounded up. */
  function JsRound(v: real): (r: int)
    ensures r as real - 0.5 <= v < r as real + 0.5
  {
    (v + 0.5).Floor
  }

  /**
   * `Math.round(origin + (extent - size) / 2)` on integers: the window's
   * margin before it is at most one unit larger than the margin after it.
   */
  function CenterCoord(origin: int, extent: int, size: int): (c: int)
    ensures 0 <= (c - origin) - (origin + extent - (c + size)) <= 1
  {
    origin + (extent - size + 1) / 2
  }

  /** The integer centring formula agrees with the real-valued one followed by `Math.round`. */
  lemma CenterCoordIsRounded(origin: int, extent: int, size: int)
    ensures CenterCoord(origin, extent, size) == JsRound(origin as real + (extent - size) as real / 2.0)
  {
    var c := CenterCoord(origin, extent, size);
    var v := origin as real + (extent - size) as real / 2.0;
    assert 2.0 * v == (2 * origin + extent - size) as real;
    assert 2 * c - (2 * origin + extent - size) == 0 || 2 * c - (2 * origin + extent - size) == 1;
    assert c as real - 0.5 <= v < c as real + 0.5;
    var r := JsRound(v);
    assert r as real - 0.5 <= v < r as real + 0.5;
  }

  /** `workArea.x + workArea.width - width`: the far edges of window and work area coincide. */
  function BottomRightCoord(origin: int, extent: int, size: int): (c: int)
    ensures c + size == origin + extent
  {
    origin + extent - size
  }

  /** The main `BrowserWindow`: size, top-left position and full-screen state. */
  class BrowserWindow {
    var width: int
    var height: int
    var x: int
    var y: int
    var fullScreen: bool

    /** `new BrowserWindow({ width, height })`; the initial position is chosen by the host. */
    constructor (width: int, height: int, x: int, y: int)
      ensures this.width == width && this.height == height
      ensures this.x == x && this.y == y && !fullScreen
    {
      this.width, this.height := width, height;
      this.x, this.y := x, y;
      fullScreen := false;
    }

    /** `win.setSize(width, height)`. */
    method SetSize(width: int, height: int)
      modifies this
      ensures this.width == width && this.height == height
      ensures x == old(x) && y == old(y) && fullScreen == old(fullScreen)
    {
      this.width, this.height := width, height;
    }

    /** `win.setPosition(x, y)`. */
    method SetPosition(x: int, y: int)
      modifies this
      ensures this.x == x && this.y == y
      ensures width == old(width) && height == old(height) && fullScreen == old(fullScreen)
    {
      this.x, this.y := x, y;
    }

    /** `win.setFullScreen(flag)`. */
    method SetFullScreen(flag: bool)
      modifies this
      ensures fullScreen == flag
      ensures width == old(width) && height == old(height) && x == old(x) && y == old(y)
    {
      fullScreen := flag;
    }
  }

  /** `centerWindow`: moves the window, at its current size, to the middle of the work area. */
  method CenterWindow(win: BrowserWindow, workArea: WorkArea)
    modifies win
    ensures win.x == CenterCoord(workArea.x, workArea.width, old(win.width))
    ensures win.y == CenterCoord(workArea.y, workArea.height, old(win.height))
    ensures win.width == old(win.width) && win.height == old(win.height)
    ensures win.fullScreen == old(win.fullScreen)
  {
    var width, height := win.width, win.height;
    var x := CenterCoord(workArea.x, workArea.width, width);
    var y := CenterCoord(workArea.y, workArea.height, height);
    win.SetPosition(x, y);
  }

  /** `positionWindowBottomRight`: moves the window, at its current size, into the work area's bottom-right corner. */
  method PositionWindowBottomRight(win: BrowserWindow, workArea: WorkArea)
    modifies win
    ensures win.x + win.width == workArea.x + workArea.width
    ensures win.y + win.height == workArea.y + workArea.height
    ensures win.width == old(win.width) && win.height == old(win.height)
    ensures win.fullScreen == old(win.fullScreen)
  {
    var width, height := win.width, win.height;
    var x := BottomRightCoord(workArea.x, workArea.width, width);
    var y := BottomRightCoord(workArea.y, workArea.height, height);
    win.SetPosition(x, y);
  }

  /**
   * The `resize-window` handler: the size is set first, so the placement
   * that follows uses the new size.
   */
  method HandleResizeWindow(win: BrowserWindow, workArea: WorkArea, width: int, height: int, isBottomRight: bool)
    modifies win
    ensures win.width == width && win.height == height
    ensures isBottomRight ==>
      win.x == BottomRightCoord(workArea.x, workArea.width, width) &&
      win.y == BottomRightCoord(workArea.y, workArea.height, height)
    ensures !isBottomRight ==>
      win.x == CenterCoord(workArea.x, workArea.width, width) &&
      win.y == CenterCoord(workArea.y, workArea.height, height)
    ensures win.fullScreen == old(win.fullScreen)
  {
    win.SetSize(width, height);
    if isBottomRight {
      PositionWindowBottomRight(win, workArea);
    } else {
      CenterWindow(win, workArea);
    }
  }

  /** The `set-full-screen` handler. */
  method HandleSetFullScreen(win: BrowserWindow, isFullScreen: bool)
    modifies win
    ensures win.fullScreen == isFullScreen
    ensures win.width == old(win.width) && win.height == old(win.height)
    ensures win.x == old(win.x) && win.y == old(win.y)
  {
    win.SetFullScreen(isFullScreen);
  }

  /** What the native open-file dialog reports. */
  datatype OpenDialogResult = OpenDialogResult(canceled: bool, filePaths: seq<string>)

  /**
   * `path.basename` on a POSIX path: the text after the last `/` (all of
   * the path when it has none).
   */
  function Basename(p: string): (b: string)
    ensures '/' !in b
    ensures |b| <= |p| && b == p[|p| - |b|..]
    ensures |b| < |p| ==> p[|p| - |b| - 1] == '/'
  {
    if p == [] then []
    else if p[|p| - 1] == '/' then []
    else Basename(p[..|p| - 1]) + [p[|p| - 1]]
  }

  /** The basename of a path ending in `/` followed by a slash-free name is that name. */
  lemma {:induction false} BasenameAfterSeparator(prefix: string, name: string)
    requires '/' !in name
    ensures Basename(prefix + "/" + name) == name
  {
    var p := prefix + "/" + name;
    if name != [] {
      var init := name[..|name| - 1];
      assert p[..|p| - 1] == prefix + "/" + init;
      assert p[|p| - 1] == name[|name| - 1];
      BasenameAfterSeparator(prefix, init);
      assert name == init + [name[|name| - 1]];
    }
  }

  /** `path.join(a, b, c)` for segments that need no normalising. */
  function Join3(a: string, b: string, c: string): (p: string)
    ensures |p| == |a| + |b| + |c| + 2
    ensures p[..|a|] == a && p[|a|] == '/'
    ensures p[|a| + 1..|a| + 1 + |b|] == b && p[|a| + 1 + |b|] == '/'
    ensures p[|a| + |b| + 2..] == c
  {
    a + "/" + b + "/" + c
  }

  /** The last segment of a three-segment join is its basename. */
  lemma BasenameOfJoin3(a: string, b: string, c: string)
    requires '/' !in c
    ensures Basename(Join3(a, b, c)) == c
  {
    assert Join3(a, b, c) == (a + "/" + b) + "/" + c;
    BasenameAfterSeparator(a + "/" + b, c);
  }

  /**
   * The `upload-video` handler's result: nothing when the dialog was
   * cancelled or returned no path, otherwise `userData/videos/<basename>`
   * of the first chosen file (the file is copied there).
   */
  function HandleUploadVideo(userData: string, dialog: OpenDialogResult): (r: Option<string>)
    ensures r.None? <==> dialog.canceled || |dialog.filePaths| == 0
    ensures r.Some? ==> Basename(r.value) == Basename(dialog.filePaths[0])
    ensures r.Some? ==> r.value == Join3(userData, "videos", Basename(dialog.filePaths[0]))
  {
    if !dialog.canceled && |dialog.filePaths| > 0 then
      var sourcePath := dialog.filePaths[0];
      var fileName := Basename(sourcePath);
      BasenameOfJoin3(userData, "videos", fileName);
      Some(Join3(userData, "videos", fileName))
    else
      None
  }
}
