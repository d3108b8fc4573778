/**
 * The Electron main process (`main.js`): the single main window's
 * lifecycle, the always-on-top toggle and the save dialog it opens for
 * the renderer.
 */
module MainProcess {
  import opened Wrappers
  import RecorderCore
  import Naming

  /** The options `show-save-dialog` passes to `dialog.showSaveDialog`. */
  datatype SaveDialogOptions = SaveDialogOptions(filterName: string, extensions: seq<string>, defaultPath: string)

  /** The dialog's options for the current time `iso`. */
  function DialogOptions(iso: string): (o: SaveDialogOptions)
    ensures o.extensions == ["wav", "mp3"]
    ensures |iso| >= 19 ==> |o.defaultPath| == 33 && ':' !in o.defaultPath
  {
    var o := SaveDialogOptions("Audio Files", ["wav", "mp3"], Naming.DialogDefaultName(iso));
    if |iso| >= 19 then Naming.DialogDefaultNameShape(iso); o else o
  }

  /** The `toggle-always-on-top` rule: with a window, the flag is negated
      and the new value returned; without one, nothing changes and the
      reply is false. Gives the new flag and the reply. */
  function Toggle(hasWindow: bool, onTop: bool): (r: (bool, bool))
    ensures hasWindow ==> r.0 == !onTop && r.1 == r.0
    ensures !hasWindow ==> r.0 == onTop && !r.1
  {
    if hasWindow then (!onTop, !onTop) else (onTop, false)
  }

  /** Two toggles restore the original flag. */
  lemma ToggleTwice(hasWindow: bool, onTop: bool)
    ensures Toggle(hasWindow, Toggle(hasWindow, onTop).0).0 == onTop
  {
  }

  class Main {
    /** `mainWindow` refers to a live window. */
    var mainWindow: bool
    /** `BrowserWindow.getAllWindows().length`. */
    var windowCount: nat
    /** `mainWindow.isAlwaysOnTop()`. */
    var alwaysOnTop: bool
    /** `app.whenReady()` has resolved and the `activate` handler is installed. */
    var ready: bool
    /** `app.quit()` has been called. */
    var quitRequested: bool

    /** At most one window exists, and `mainWindow` refers to it exactly
        when it exists. */
    predicate Valid()
      reads this
    {
      && windowCount <= 1
      && (mainWindow <==> windowCount == 1)
      && (!ready ==> windowCount == 0)
    }

    constructor()
      ensures Valid()
      ensures !mainWindow && windowCount == 0 && !ready && !quitRequested && !alwaysOnTop
    {
      mainWindow, windowCount, alwaysOnTop, ready, quitRequested := false, 0, false, false, false;
    }

    /** `createWindow`: a new window, not always on top. */
    method CreateWindow()
      requires Valid() && ready && windowCount == 0
      modifies this
      ensures Valid() && mainWindow && windowCount == 1 && !alwaysOnTop
      ensures ready == old(ready) && quitRequested == old(quitRequested)
    {
      mainWindow := true;
      windowCount := windowCount + 1;
      alwaysOnTop := false;
    }

    /** `app.whenReady().then(...)`: create the window and start listening
        for `activate`. */
    method OnReady()
      requires Valid() && !ready
      modifies this
      ensures Valid() && ready && mainWindow && windowCount == 1 && !alwaysOnTop
      ensures quitRequested == old(quitRequested)
    {
      ready := true;
      CreateWindow();
    }

    /** `activate`: a window is created only when none exists. */
    method OnActivate()
      requires Valid()
      modifies this
      ensures Valid()
      ensures old(ready) && old(windowCount) == 0 ==> mainWindow && windowCount == 1 && !alwaysOnTop
      ensures !(old(ready) && old(windowCount) == 0) ==> unchanged(this)
    {
      if ready && windowCount == 0 {
        CreateWindow();
      }
    }

    /** The main window's `closed` event: the reference is dropped. */
    method OnWindowClosed()
      requires Valid() && mainWindow
      modifies this
      ensures Valid() && !mainWindow && windowCount == 0
      ensures ready == old(ready) && quitRequested == old(quitRequested)
    {
      mainWindow := false;
      windowCount := windowCount - 1;
    }

    /** `window-all-closed`: quit unless the platform is macOS. */
    method OnAllWindowsClosed(platform: string)
      requires Valid()
      modifies this`quitRequested
      ensures quitRequested == (old(quitRequested) || platform != "darwin")
    {
      if platform != "darwin" {
        quitRequested := true;
      }
    }

    /** The `toggle-always-on-top` handler. */
    method ToggleAlwaysOnTop() returns (reply: bool)
      requires Valid()
      modifies this`alwaysOnTop
      ensures Valid()
      ensures (alwaysOnTop, reply) == Toggle(mainWindow, old(alwaysOnTop))
    {
      if mainWindow {
        var isAlwaysOnTop := alwaysOnTop;
        alwaysOnTop := !isAlwaysOnTop;
        return !isAlwaysOnTop;
      }
      return false;
    }

    /** The `show-save-dialog` handler at time `iso`, where `answer` is what
        the user does in the dialog: with a window, the dialog is shown with
        the `recording-<timestamp>.wav` default and its result returned;
        without one the reply is null and no dialog is shown. */
    method ShowSaveDialog(iso: string, answer: RecorderCore.SaveDialogResult)
      returns (shown: Option<SaveDialogOptions>, reply: Option<RecorderCore.SaveDialogResult>)
      requires Valid()
      ensures mainWindow ==> shown == Some(DialogOptions(iso)) && reply == Some(answer)
      ensures !mainWindow ==> shown == None && reply == None
      ensures shown.Some? && |iso| >= 19 ==>
        |shown.value.defaultPath| == 33 && ':' !in shown.value.defaultPath
        && shown.value.defaultPath[..10] == "recording-" && shown.value.defaultPath[29..] == ".wav"
    {
      if mainWindow {
        if |iso| >= 19 {
          Naming.DialogDefaultNameShape(iso);
        }
        return Some(DialogOptions(iso)), Some(answer);
      }
      return None, None;
    }
  }
}
