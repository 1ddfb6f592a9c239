/**
 * The renderer-facing `api` of src/preload/index.ts. Each call is an
 * `ipcRenderer.invoke` on a named channel, awaited in order; the main
 * process's handler for the channel runs at once on the main window.
 */
module Preload {
  import opened Wrappers
  import MainProcess
  import App

  /** One IPC invocation as it crosses to the main process. */
  datatype Invocation =
    | SetFullScreenInvocation(isFullScreen: bool)
    | ResizeWindowInvocation(width: int, height: int, isBottomRight: bool)
    | UploadVideoInvocation

  /** The `api` object, bound to the main window, with the log of invocations it has sent. */
  class Api {
    const win: MainProcess.BrowserWindow
    var invocations: seq<Invocation>

    constructor (win: MainProcess.BrowserWindow)
      ensures this.win == win && invocations == []
    {
      this.win := win;
      invocations := [];
    }

    /**
     * `resizeWindow`: leaves full screen, then resizes and places the
     * window; an omitted `isBottomRight` means bottom-right.
     */
    method ResizeWindow(workArea: MainProcess.WorkArea, width: int, height: int, isBottomRight: Option<bool>)
      modifies this, win
      ensures var bottomRight := if isBottomRight.Some? then isBottomRight.value else true;
        invocations == old(invocations) + [SetFullScreenInvocation(false), ResizeWindowInvocation(width, height, bottomRight)]
      ensures !win.fullScreen
      ensures win.width == width && win.height == height
      ensures isBottomRight != Some(false) ==>
        win.x + width == workArea.x + workArea.width &&
        win.y + height == workArea.y + workArea.height
      ensures isBottomRight == Some(false) ==>
        win.x == MainProcess.CenterCoord(workArea.x, workArea.width, width) &&
        win.y == MainProcess.CenterCoord(workArea.y, workArea.height, height)
    {
      var bottomRight := if isBottomRight.Some? then isBottomRight.value else true;
      invocations := invocations + [SetFullScreenInvocation(false)];
      MainProcess.HandleSetFullScreen(win, false);
      invocations := invocations + [ResizeWindowInvocation(width, height, bottomRight)];
      MainProcess.HandleResizeWindow(win, workArea, width, height, bottomRight);
    }

    /** `setFullScreen`: forwards the flag unchanged. */
    method SetFullScreen(isFullScreen: bool)
      modifies this, win
      ensures invocations == old(invocations) + [SetFullScreenInvocation(isFullScreen)]
      ensures win.fullScreen == isFullScreen
      ensures win.width == old(win.width) && win.height == old(win.height)
      ensures win.x == old(win.x) && win.y == old(win.y)
    {
      invocations := invocations + [SetFullScreenInvocation(isFullScreen)];
      MainProcess.HandleSetFullScreen(win, isFullScreen);
    }

    /**
     * `uploadVideo`: returns the main process's answer unchanged; the
     * dialog's outcome and the user-data directory are inputs.
     */
    method UploadVideo(userData: string, dialog: MainProcess.OpenDialogResult) returns (path: Option<string>)
      modifies this
      ensures invocations == old(invocations) + [UploadVideoInvocation]
      ensures path == MainProcess.HandleUploadVideo(userData, dialog)
      ensures path.None? <==> dialog.canceled || |dialog.filePaths| == 0
    {
      invocations := invocations + [UploadVideoInvocation];
      path := MainProcess.HandleUploadVideo(userData, dialog);
    }

    /** Carries out one `window.api` call of the renderer's timer on the main window. */
    method Perform(workArea: MainProcess.WorkArea, call: App.ApiCall)
      modifies this, win
      ensures call.ResizeWindow? ==>
        invocations == old(invocations) +
          [SetFullScreenInvocation(false), ResizeWindowInvocation(call.width, call.height, call.isBottomRight)]
      ensures call.ResizeWindow? ==>
        !win.fullScreen && win.width == call.width && win.height == call.height &&
        (call.isBottomRight ==>
          win.x + call.width == workArea.x + workArea.width &&
          win.y + call.height == workArea.y + workArea.height) &&
        (!call.isBottomRight ==>
          win.x == MainProcess.CenterCoord(workArea.x, workArea.width, call.width) &&
          win.y == MainProcess.CenterCoord(workArea.y, workArea.height, call.height))
      ensures call.SetFullScreen? ==>
        invocations == old(invocations) + [SetFullScreenInvocation(call.isFullScreen)]
      ensures call.SetFullScreen? ==>
        win.fullScreen == call.isFullScreen &&
        win.width == old(win.width) && win.height == old(win.height) &&
        win.x == old(win.x) && win.y == old(win.y)
    {
      match call
      case ResizeWindow(width, height, isBottomRight) =>
        ResizeWindow(workArea, width, height, Some(isBottomRight));
      case SetFullScreen(isFullScreen) =>
        SetFullScreen(isFullScreen);
    }
  }
}
