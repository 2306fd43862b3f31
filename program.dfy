/**
  The program itself: its static fields as fields of one object, which also
  holds the environment they act on (the shared directory, the clipboard and
  the trace of effects). Each handler is proved to perform exactly the step of
  SyncModel that gives its meaning, so the properties proved there hold of it.
  */
module ClipboardShared {
  import opened Host
  import opened SyncModel

  class Program {
    // the environment
    var dir: Directory
    var clipboard: ClipData
    var trace: seq<Effect>

    // the program's static fields
    var directory: string
    var textPath: string
    var imgPath: string
    var watcherEnabled: bool
    var subscriptions: nat
    var watcherCounter: int
    var clipboardImgCounter: int

    /** The controller's state together with its environment. */
    function Snapshot(): State
      reads this
    {
      State(dir, clipboard, trace, watcherEnabled, subscriptions, watcherCounter, clipboardImgCounter)
    }

    /** The static initialisers: a new watcher raises no events, nothing is
        subscribed, both counters are 0 and no path is set yet. */
    constructor (dir0: Directory, clipboard0: ClipData)
      ensures Snapshot() == Initial(dir0, clipboard0)
      ensures directory == "" && textPath == "" && imgPath == ""
    {
      dir, clipboard, trace := dir0, clipboard0, [];
      directory, textPath, imgPath := "", "", "";
      watcherEnabled, subscriptions := false, 0;
      watcherCounter, clipboardImgCounter := 0, 0;
    }

    // ---- primitive effects on the environment -------------------------------

    method WriteAllText(t: string)
      modifies this
      ensures Snapshot() == WriteText(old(Snapshot()), t)
      ensures directory == old(directory) && textPath == old(textPath) && imgPath == old(imgPath)
    {
      trace := trace + [TextWritten(t, watcherEnabled)];
      dir := dir.(text := Some(t));
    }

    method DeleteImageIfExists()
      modifies this
      ensures Snapshot() == DeleteImage(old(Snapshot()))
      ensures directory == old(directory) && textPath == old(textPath) && imgPath == old(imgPath)
    {
      if dir.image.Some? {
        trace := trace + [ImageDeleted(watcherEnabled)];
        dir := dir.(image := None);
      }
    }

    method CreateImageFile(png: Bytes)
      modifies this
      ensures Snapshot() == CreateImage(old(Snapshot()), png)
      ensures directory == old(directory) && textPath == old(textPath) && imgPath == old(imgPath)
    {
      trace := trace + [ImageWritten(png, watcherEnabled)];
      dir := dir.(image := Some(png));
    }

    method WriteClipboard(d: ClipData)
      modifies this
      ensures Snapshot() == SetClipboard(old(Snapshot()), d)
      ensures directory == old(directory) && textPath == old(textPath) && imgPath == old(imgPath)
    {
      trace := trace + [ClipboardWritten(d, subscriptions)];
      clipboard := d;
    }

    // ---- the program ----------------------------------------------------------

    /** Main up to the message loop, which is where notifications come from. */
    method Startup(args: seq<string>)
      modifies this
      ensures Snapshot() == StartupStep(old(Snapshot()), |args|)
      ensures |args| == 1 ==>
        directory == args[0] && textPath == Combine(args[0], TextFile) && imgPath == Combine(args[0], ImageFile)
      ensures |args| != 1 ==>
        directory == old(directory) && textPath == old(textPath) && imgPath == old(imgPath)
    {
      if |args| != 1 {
        return;
      }
      directory := args[0];
      textPath := Combine(directory, TextFile);
      imgPath := Combine(directory, ImageFile);
      if dir.text.None? {
        WriteAllText("");
      }
      subscriptions := subscriptions + 1;
      watcherEnabled := true;
    }

    /** WM_CLIPBOARDUPDATE arrived: invoke whatever ClipboardUpdate holds. */
    method OnClipboardUpdate()
      modifies this
      ensures Snapshot() == ClipboardNotify(old(Snapshot()))
      ensures directory == old(directory) && textPath == old(textPath) && imgPath == old(imgPath)
    {
      var n := subscriptions;
      var i := 0;
      while i < n
        invariant 0 <= i <= n
        invariant subscriptions == n
        invariant Snapshot() == ClipboardChangeTimes(old(Snapshot()), i)
        invariant directory == old(directory) && textPath == old(textPath) && imgPath == old(imgPath)
      {
        ClipboardChangeHandler();
        i := i + 1;
      }
    }

    method ClipboardChangeHandler()
      modifies this
      ensures Snapshot() == ClipboardChange(old(Snapshot()))
      ensures watcherEnabled
      ensures directory == old(directory) && textPath == old(textPath) && imgPath == old(imgPath)
    {
      watcherEnabled := false;
      var data := clipboard;
      if data.text.Some? {
        WriteAllText(data.text.value);
      } else if data.bitmap.Some? {
        clipboardImgCounter := clipboardImgCounter + 1;
        if clipboardImgCounter == 2 {
          if data.png.Some? {
            DeleteImageIfExists();
            CreateImageFile(data.png.value);
          }
          clipboardImgCounter := 0;
        }
      }
      watcherEnabled := true;
    }

    /** A file notification for `name`; `threw` tells that an exception escaped. */
    method FileChangeHandler(name: string) returns (threw: bool)
      modifies this
      ensures Snapshot() == FileChange(old(Snapshot()), name).state
      ensures threw <==> FileChange(old(Snapshot()), name).Threw?
      ensures directory == old(directory) && textPath == old(textPath) && imgPath == old(imgPath)
    {
      threw := false;
      var key := Lower(name);
      if key == TextFile {
        watcherCounter := watcherCounter + 1;
        if watcherCounter == 2 {
          if dir.text.None? {
            // File.ReadAllText on a missing file
            threw := true;
            return;
          }
          var text := dir.text.value;
          if text != "" {
            CallClipboardFun(TextClip(text));
          }
          watcherCounter := 0;
        }
      } else if key == ImageFile {
        if dir.image.None? {
          // new Bitmap(path) on a missing file
          threw := true;
          return;
        }
        CallClipboardFun(ImageClip(dir.image.value));
      }
    }

    /** Run the clipboard write `d` with the clipboard handler unsubscribed. */
    method CallClipboardFun(d: ClipData)
      modifies this
      ensures Snapshot() == ClipboardCall(old(Snapshot()), d)
      ensures subscriptions == 1
      ensures directory == old(directory) && textPath == old(textPath) && imgPath == old(imgPath)
    {
      subscriptions := 0;
      WriteClipboard(d);
      subscriptions := subscriptions + 1;
    }
  }
}
