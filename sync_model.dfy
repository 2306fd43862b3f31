/**
  The synchronisation controller as pure state transitions. A `State` holds
  what the program's static fields hold (the watcher switch, the clipboard
  subscriptions and the two debounce counters) together with the environment
  those fields act on. Each step function below is the meaning of one handler
  of the program; the class in ClipboardShared is proved to perform exactly
  these steps.
  */
module SyncModel {
  import opened Host

  datatype State = State(
    dir: Directory,
    clipboard: ClipData,
    trace: seq<Effect>,
    watcherEnabled: bool,   // watcher.EnableRaisingEvents
    subscriptions: nat,     // copies of ClipboardChangeHandler in ClipboardUpdate
    watcherCounter: int,
    imgCounter: int)        // clipboardImgCounter

  /** The process before Main runs: static initialisers only. */
  function Initial(dir: Directory, clipboard: ClipData): State
  {
    State(dir, clipboard, [], false, 0, 0, 0)
  }

  /** What holds between events once startup has succeeded. */
  predicate Valid(s: State)
  {
    && s.watcherEnabled
    && s.subscriptions == 1
    && 0 <= s.watcherCounter <= 1
    && 0 <= s.imgCounter <= 1
    && s.dir.text.Some?
  }

  /** `t` extends the trace of `s`, and none of the effects added on the way
      reaches the program again as a notification. */
  predicate SilentSince(s: State, t: State)
  {
    && |s.trace| <= |t.trace|
    && t.trace[..|s.trace|] == s.trace
    && forall i :: |s.trace| <= i < |t.trace| ==> Silent(t.trace[i])
  }

  // ---- primitive effects on the environment -------------------------------

  /** File.WriteAllText(textPath, t), and also File.Create(textPath).Close() with t empty. */
  function WriteText(s: State, t: string): State
  {
    s.(dir := s.dir.(text := Some(t)), trace := s.trace + [TextWritten(t, s.watcherEnabled)])
  }

  /** if (File.Exists(imgPath)) File.Delete(imgPath) */
  function DeleteImage(s: State): State
  {
    if s.dir.image.Some? then
      s.(dir := s.dir.(image := None), trace := s.trace + [ImageDeleted(s.watcherEnabled)])
    else s
  }

  /** A new img.png created and filled with the PNG stream. */
  function CreateImage(s: State, png: Bytes): State
  {
    s.(dir := s.dir.(image := Some(png)), trace := s.trace + [ImageWritten(png, s.watcherEnabled)])
  }

  /** Clipboard.SetText / Clipboard.SetImage. */
  function SetClipboard(s: State, d: ClipData): State
  {
    s.(clipboard := d, trace := s.trace + [ClipboardWritten(d, s.subscriptions)])
  }

  // ---- the handlers ---------------------------------------------------------

  /** Main: with exactly one argument, create text.txt empty if it is absent,
      subscribe the clipboard handler, then enable the watcher. */
  function StartupStep(s: State, argCount: nat): (r: State)
    ensures argCount != 1 ==> r == s
    ensures argCount == 1 ==> r.dir.text == (if s.dir.text.Some? then s.dir.text else Some(""))
    ensures argCount == 1 ==>
      r.trace == s.trace + (if s.dir.text.None? then [TextWritten("", s.watcherEnabled)] else [])
    ensures r.dir.image == s.dir.image
    ensures argCount == 1 ==> r.watcherEnabled && r.subscriptions == s.subscriptions + 1
    ensures r.clipboard == s.clipboard && r.watcherCounter == s.watcherCounter && r.imgCounter == s.imgCounter
    ensures !s.watcherEnabled ==> SilentSince(s, r)
    ensures s == Initial(s.dir, s.clipboard) && argCount == 1 ==> Valid(r)
  {
    if argCount != 1 then s
    else
      var s1 := if s.dir.text.None? then WriteText(s, "") else s;
      s1.(subscriptions := s1.subscriptions + 1, watcherEnabled := true)
  }

  /** ClipboardChangeHandler: the outbound direction, clipboard to file. */
  function ClipboardChange(s: State): (r: State)
    // whatever the branch, the watcher is on afterwards and nothing written was watched
    ensures r.watcherEnabled
    ensures SilentSince(s, r)
    ensures r.clipboard == s.clipboard && r.subscriptions == s.subscriptions
    ensures r.watcherCounter == s.watcherCounter
    // text wins over a bitmap, and then the image side is untouched
    ensures s.clipboard.text.Some? ==>
      r.dir == s.dir.(text := s.clipboard.text) && r.imgCounter == s.imgCounter
      && r.trace == s.trace + [TextWritten(s.clipboard.text.value, false)]
    // a bitmap: the counter advances, and the second notification commits and resets it
    ensures s.clipboard.text.None? && s.clipboard.bitmap.Some? && s.imgCounter + 1 != 2 ==>
      r.dir == s.dir && r.trace == s.trace && r.imgCounter == s.imgCounter + 1
    ensures s.clipboard.text.None? && s.clipboard.bitmap.Some? && s.imgCounter + 1 == 2 ==>
      r.imgCounter == 0
      && r.dir == (if s.clipboard.png.Some? then s.dir.(image := s.clipboard.png) else s.dir)
    // the commit replaces img.png by delete-then-create
    ensures (s.clipboard.text.None? && s.clipboard.bitmap.Some? && s.imgCounter + 1 == 2
             && s.clipboard.png.Some?) ==>
      r.trace == s.trace + (if s.dir.image.Some? then [ImageDeleted(false)] else [])
                         + [ImageWritten(s.clipboard.png.value, false)]
    ensures (s.clipboard.text.None? && s.clipboard.bitmap.Some? && s.imgCounter + 1 == 2
             && s.clipboard.png.None?) ==> r.trace == s.trace
    // any other format changes no file and no counter
    ensures s.clipboard.text.None? && s.clipboard.bitmap.None? ==>
      r.dir == s.dir && r.trace == s.trace && r.imgCounter == s.imgCounter
    ensures Valid(s) ==> Valid(r)
  {
    var s1 := s.(watcherEnabled := false);
    var s2 :=
      if s.clipboard.text.Some? then WriteText(s1, s.clipboard.text.value)
      else if s.clipboard.bitmap.Some? then
        var c := s.imgCounter + 1;
        if c == 2 then
          var s3 := if s.clipboard.png.Some? then CreateImage(DeleteImage(s1), s.clipboard.png.value) else s1;
          s3.(imgCounter := 0)
        else s1.(imgCounter := c)
      else s1;
    s2.(watcherEnabled := true)
  }

  /** `n` runs of ClipboardChangeHandler, one after the other. */
  function ClipboardChangeTimes(s: State, n: nat): (r: State)
    ensures n > 0 ==> r.watcherEnabled
    ensures n == 0 ==> r == s
    ensures SilentSince(s, r)
    ensures r.clipboard == s.clipboard && r.subscriptions == s.subscriptions
    ensures r.watcherCounter == s.watcherCounter
    ensures Valid(s) ==> Valid(r)
    decreases n
  {
    if n == 0 then s else ClipboardChange(ClipboardChangeTimes(s, n - 1))
  }

  /** OnClipboardUpdate: every subscribed copy of the handler runs once, and
      with nothing subscribed the notification is dropped. */
  function ClipboardNotify(s: State): (r: State)
    ensures s.subscriptions == 0 ==> r == s
    ensures Valid(s) ==> r == ClipboardChange(s)
    ensures SilentSince(s, r)
  {
    ClipboardChangeTimes(s, s.subscriptions)
  }

  /** CallClipboardFun: unsubscribe, write the clipboard and wait for it, resubscribe. */
  function ClipboardCall(s: State, d: ClipData): (r: State)
    ensures r.subscriptions == 1
    ensures r.clipboard == d
    ensures r.trace == s.trace + [ClipboardWritten(d, 0)]
    ensures SilentSince(s, r)
    ensures r.dir == s.dir && r.watcherEnabled == s.watcherEnabled
    ensures r.watcherCounter == s.watcherCounter && r.imgCounter == s.imgCounter
  {
    var s1 := s.(subscriptions := 0);
    var s2 := SetClipboard(s1, d);
    s2.(subscriptions := s2.subscriptions + 1)
  }

  /** A handler either returns or lets an exception escape. */
  datatype Outcome = Handled(state: State) | Threw(state: State)

  /** FileChangeHandler: the inbound direction, file to clipboard. `name` is
      the name the notification carries. */
  function FileChange(s: State, name: string): (o: Outcome)
    // no file is ever written, the watcher and the image counter are left alone
    ensures o.state.dir == s.dir && o.state.watcherEnabled == s.watcherEnabled
    ensures o.state.imgCounter == s.imgCounter
    ensures SilentSince(s, o.state)
    // text.txt: the counter advances, and the second notification copies a non-empty text
    ensures Lower(name) == TextFile && s.watcherCounter + 1 != 2 ==>
      o == Handled(s.(watcherCounter := s.watcherCounter + 1))
    ensures Lower(name) == TextFile && s.watcherCounter + 1 == 2 && s.dir.text.None? ==>
      o.Threw? && o.state == s.(watcherCounter := 2)
    ensures Lower(name) == TextFile && s.watcherCounter + 1 == 2 && s.dir.text.Some? ==>
      o.Handled? && o.state.watcherCounter == 0
      && (s.dir.text.value != "" ==>
            o.state.clipboard == TextClip(s.dir.text.value) && o.state.subscriptions == 1
            && o.state.trace == s.trace + [ClipboardWritten(TextClip(s.dir.text.value), 0)])
      && (s.dir.text.value == "" ==>
            o.state == s.(watcherCounter := 0))
    // img.png: copied on every notification, and the text counter is left alone
    ensures Lower(name) == ImageFile ==> o.state.watcherCounter == s.watcherCounter
    ensures Lower(name) == ImageFile && s.dir.image.Some? ==>
      o == Handled(ClipboardCall(s, ImageClip(s.dir.image.value)))
    ensures Lower(name) == ImageFile && s.dir.image.None? ==> o == Threw(s)
    // any other name
    ensures Lower(name) != TextFile && Lower(name) != ImageFile ==> o == Handled(s)
    ensures Valid(s) && (Lower(name) == ImageFile ==> s.dir.image.Some?) ==>
      o.Handled? && Valid(o.state)
  {
    var key := Lower(name);
    if key == TextFile then
      var c := s.watcherCounter + 1;
      var s1 := s.(watcherCounter := c);
      if c == 2 then
        match s.dir.text
        case None => Threw(s1)
        case Some(t) =>
          var s2 := if t != "" then ClipboardCall(s1, TextClip(t)) else s1;
          Handled(s2.(watcherCounter := 0))
      else Handled(s1)
    else if key == ImageFile then
      match s.dir.image
      case None => Threw(s)
      case Some(b) => Handled(ClipboardCall(s, ImageClip(b)))
    else Handled(s)
  }
}
