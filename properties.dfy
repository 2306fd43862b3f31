/**
  Properties of the synchronisation controller over sequences of events: the
  controller never hears back from its own writes, the two debounce counters
  do what the source's comments say they do, and one instance's outbound file
  reaches the other instance's clipboard.
  */
module SyncProperties {
  import opened Host
  import opened SyncModel

  /** What can happen to a running instance from outside. A remote write
      changes a shared file through the synchronised folder and raises no
      notification by itself; the watcher's notifications for it arrive as
      separate `FileNotified` events, one or more. */
  datatype Event =
    | UserCopy(data: ClipData)          // someone else changes the clipboard
    | RemoteText(text: string)          // text.txt rewritten by the sync client
    | RemoteImage(png: Bytes)           // img.png rewritten by the sync client
    | FileNotified(name: string)        // the watcher's Changed event

  /** One event, handled by the running program. */
  function Step(s: State, e: Event): (o: Outcome)
    ensures SilentSince(s, o.state)
    ensures Valid(s) && (e.FileNotified? && Lower(e.name) == ImageFile ==> s.dir.image.Some?) ==>
      o.Handled? && Valid(o.state)
  {
    match e
    case UserCopy(d) => Handled(ClipboardNotify(s.(clipboard := d)))
    case RemoteText(t) => Handled(s.(dir := s.dir.(text := Some(t))))
    case RemoteImage(b) => Handled(s.(dir := s.dir.(image := Some(b))))
    case FileNotified(n) => if s.watcherEnabled then FileChange(s, n) else Handled(s)
  }

  /** Events handled in order, until one of them lets an exception escape. */
  function Run(s: State, es: seq<Event>): Outcome
    decreases |es|
  {
    if es == [] then Handled(s)
    else
      match Step(s, es[0])
      case Threw(t) => Threw(t)
      case Handled(t) => Run(t, es[1..])
  }

  lemma SilentSinceTransitive(a: State, b: State, c: State)
    requires SilentSince(a, b) && SilentSince(b, c)
    ensures SilentSince(a, c)
  {
  }

  /** No feedback loop: whatever the events, none of the program's own file
      or clipboard writes is ever noticed by the program, and the between-event
      invariant (watcher on, one subscription, both counters 0 or 1) holds
      after every event handled without an exception. */
  lemma {:induction false} RunHasNoFeedback(s: State, es: seq<Event>)
    requires Valid(s)
    ensures SilentSince(s, Run(s, es).state)
    ensures Run(s, es).Handled? ==> Valid(Run(s, es).state)
    decreases |es|
  {
    if es != [] {
      var o := Step(s, es[0]);
      if o.Handled? {
        // only an img.png notification with no img.png can throw from a valid state
        assert Valid(o.state);
        RunHasNoFeedback(o.state, es[1..]);
        SilentSinceTransitive(s, o.state, Run(o.state, es[1..]).state);
      }
    }
  }

  // ---- counting effects -----------------------------------------------------

  function ImageWrites(t: seq<Effect>): nat
    decreases |t|
  {
    if t == [] then 0 else (if t[0].ImageWritten? then 1 else 0) + ImageWrites(t[1..])
  }

  function ClipboardWrites(t: seq<Effect>): nat
    decreases |t|
  {
    if t == [] then 0 else (if t[0].ClipboardWritten? then 1 else 0) + ClipboardWrites(t[1..])
  }

  lemma {:induction false} ImageWritesAppend(t: seq<Effect>, e: Effect)
    ensures ImageWrites(t + [e]) == ImageWrites(t) + (if e.ImageWritten? then 1 else 0)
    decreases |t|
  {
    if t != [] {
      assert (t + [e])[1..] == t[1..] + [e];
      ImageWritesAppend(t[1..], e);
    }
  }

  lemma {:induction false} ClipboardWritesAppend(t: seq<Effect>, e: Effect)
    ensures ClipboardWrites(t + [e]) == ClipboardWrites(t) + (if e.ClipboardWritten? then 1 else 0)
    decreases |t|
  {
    if t != [] {
      assert (t + [e])[1..] == t[1..] + [e];
      ClipboardWritesAppend(t[1..], e);
    }
  }

  /** One clipboard notification with a bitmap (and no text) on the clipboard. */
  lemma BitmapStep(p: State)
    requires Valid(p)
    requires p.clipboard.text.None? && p.clipboard.bitmap.Some? && p.clipboard.png.Some?
    ensures ClipboardChange(p).imgCounter == 1 - p.imgCounter
    ensures ImageWrites(ClipboardChange(p).trace) == ImageWrites(p.trace) + p.imgCounter
    ensures ClipboardChange(p).dir ==
      if p.imgCounter == 1 then p.dir.(image := p.clipboard.png) else p.dir
  {
    if p.imgCounter == 1 {
      var b := p.clipboard.png.value;
      var mid := p.trace + (if p.dir.image.Some? then [ImageDeleted(false)] else []);
      assert ClipboardChange(p).trace == mid + [ImageWritten(b, false)];
      ImageWritesAppend(mid, ImageWritten(b, false));
      if p.dir.image.Some? {
        ImageWritesAppend(p.trace, ImageDeleted(false));
      }
    }
  }

  /** The image debounce: with a bitmap (and no text) on the clipboard, `n`
      clipboard notifications write img.png once per two of them, counting the
      one already in clipboardImgCounter, and leave that counter at the
      remainder: n + old counter == 2 * writes + new counter, the new counter
      being 0 or 1. */
  lemma {:induction false} BitmapCommitsEverySecond(s: State, n: nat)
    requires Valid(s)
    requires s.clipboard.text.None? && s.clipboard.bitmap.Some? && s.clipboard.png.Some?
    ensures 0 <= ClipboardChangeTimes(s, n).imgCounter <= 1
    ensures ImageWrites(ClipboardChangeTimes(s, n).trace) >= ImageWrites(s.trace)
    ensures s.imgCounter + n ==
      2 * (ImageWrites(ClipboardChangeTimes(s, n).trace) - ImageWrites(s.trace))
      + ClipboardChangeTimes(s, n).imgCounter
    ensures ClipboardChangeTimes(s, n).dir ==
      if s.imgCounter + n >= 2 then s.dir.(image := s.clipboard.png) else s.dir
    decreases n
  {
    if n > 0 {
      BitmapCommitsEverySecond(s, n - 1);
      var p := ClipboardChangeTimes(s, n - 1);
      assert Valid(p) && p.clipboard == s.clipboard;
      BitmapStep(p);
    }
  }

  /** `n` watcher notifications for the same name, until one throws. */
  function FileChangeTimes(s: State, name: string, n: nat): Outcome
    decreases n
  {
    if n == 0 then Handled(s)
    else
      match FileChangeTimes(s, name, n - 1)
      case Threw(t) => Threw(t)
      case Handled(t) => FileChange(t, name)
  }

  /** The text debounce: `n` notifications for text.txt copy the file to the
      clipboard once per two of them, counting the one already in
      watcherCounter, and only when the file is not empty; the counter is left
      at the remainder either way and no file is written. */
  lemma {:induction false} TextCopiedEverySecond(s: State, name: string, n: nat)
    requires Valid(s) && Lower(name) == TextFile
    ensures FileChangeTimes(s, name, n).Handled?
    ensures FileChangeTimes(s, name, n).state.watcherCounter == (s.watcherCounter + n) % 2
    ensures ClipboardWrites(FileChangeTimes(s, name, n).state.trace) ==
      ClipboardWrites(s.trace) + (if s.dir.text.value != "" then (s.watcherCounter + n) / 2 else 0)
    ensures FileChangeTimes(s, name, n).state.clipboard ==
      if s.dir.text.value != "" && s.watcherCounter + n >= 2 then TextClip(s.dir.text.value) else s.clipboard
    ensures FileChangeTimes(s, name, n).state.dir == s.dir
    ensures Valid(FileChangeTimes(s, name, n).state)
    decreases n
  {
    if n > 0 {
      TextCopiedEverySecond(s, name, n - 1);
      var p := FileChangeTimes(s, name, n - 1).state;
      var t := s.dir.text.value;
      if p.watcherCounter == 1 && t != "" {
        ClipboardWritesAppend(p.trace, ClipboardWritten(TextClip(t), 0));
      }
    }
  }

  // ---- scenarios ------------------------------------------------------------

  /** Starting on an empty directory leaves an empty text.txt and no img.png. */
  lemma StartupOnEmptyDirectory(c: ClipData)
    ensures StartupStep(Initial(Directory(None, None), c), 1).dir == Directory(Some(""), None)
    ensures Valid(StartupStep(Initial(Directory(None, None), c), 1))
  {
  }

  /** Copying text on one instance and the sync client delivering text.txt to
      the other (with the watcher's usual two notifications) puts the same
      text on the other clipboard, and the receiving instance writes no file. */
  lemma {:induction false} TextRoundTrip(a: State, b: State, t: string)
    requires Valid(a) && Valid(b) && b.watcherCounter == 0 && t != ""
    ensures Step(a, UserCopy(TextClip(t))).state.dir.text == Some(t)
    ensures Run(b, [RemoteText(t), FileNotified(TextFile), FileNotified(TextFile)])
            == Handled(b.(dir := b.dir.(text := Some(t)), clipboard := TextClip(t),
                          trace := b.trace + [ClipboardWritten(TextClip(t), 0)]))
  {
    var es := [RemoteText(t), FileNotified(TextFile), FileNotified(TextFile)];
    var b1 := b.(dir := b.dir.(text := Some(t)));
    assert Step(b, es[0]) == Handled(b1);
    LowerPlain(TextFile);
    var b2 := FileChange(b1, TextFile).state;
    assert b2 == b1.(watcherCounter := 1);
    assert Run(b, es) == Run(b2, es[2..]);
  }

  /** Two bitmap notifications for a screenshot on one instance put those
      PNG bytes into img.png. */
  lemma ImageSent(a: State, c: ClipData)
    requires Valid(a) && a.imgCounter == 0
    requires c.text.None? && c.bitmap.Some? && c.png.Some?
    ensures Run(a, [UserCopy(c), UserCopy(c)]).state.dir.image == c.png
  {
    var es := [UserCopy(c), UserCopy(c)];
    var a1 := ClipboardChange(a.(clipboard := c));
    assert Valid(a.(clipboard := c));
    assert Step(a, es[0]) == Handled(a1);
    assert a1.imgCounter == 1 && a1.(clipboard := c) == a1;
    assert es[1..] == [UserCopy(c)];
    assert Run(a, es) == Run(a1, [UserCopy(c)]);
  }

  /** A watcher notification for img.png, with img.png present, puts its image on the clipboard. */
  lemma ImageNotified(t: State, png: Bytes)
    requires t.watcherEnabled && t.dir.image == Some(png)
    ensures Step(t, FileNotified(ImageFile)) == Handled(ClipboardCall(t, ImageClip(png)))
  {
  }

  /** One notification for img.png on the other instance, after the sync
      client delivers it, puts the image decoded from those bytes on its
      clipboard. */
  lemma ImageReceived(b: State, png: Bytes)
    requires Valid(b)
    ensures Run(b, [RemoteImage(png), FileNotified(ImageFile)]).state.clipboard == ImageClip(png)
  {
    var es := [RemoteImage(png), FileNotified(ImageFile)];
    var b1 := b.(dir := b.dir.(image := Some(png)));
    assert Step(b, es[0]) == Handled(b1);
    ImageNotified(b1, png);
    assert es[1..] == [FileNotified(ImageFile)];
    assert Run(b1, [FileNotified(ImageFile)]) == Run(ClipboardCall(b1, ImageClip(png)), []);
  }

  /** A text copy between two bitmap notifications does not reset the image
      counter: the second bitmap still commits img.png. */
  lemma TextDoesNotResetImageCounter(a: State, c: ClipData, t: string)
    requires Valid(a) && a.imgCounter == 0
    requires c.text.None? && c.bitmap.Some? && c.png.Some?
    ensures Run(a, [UserCopy(c), UserCopy(TextClip(t)), UserCopy(c)]).state.dir.image == c.png
  {
    var es := [UserCopy(c), UserCopy(TextClip(t)), UserCopy(c)];
    var a1 := ClipboardChange(a.(clipboard := c));
    assert Valid(a.(clipboard := c));
    assert Step(a, es[0]) == Handled(a1);
    var a2 := ClipboardChange(a1.(clipboard := TextClip(t)));
    assert Valid(a1.(clipboard := TextClip(t)));
    assert Step(a1, es[1]) == Handled(a2);
    assert a2.imgCounter == 1 && Valid(a2.(clipboard := c));
    var a3 := ClipboardChange(a2.(clipboard := c));
    assert Step(a2, es[2]) == Handled(a3);
    assert es[1..] == [UserCopy(TextClip(t)), UserCopy(c)];
    assert Run(a, es) == Run(a1, [UserCopy(TextClip(t)), UserCopy(c)]);
    assert [UserCopy(TextClip(t)), UserCopy(c)][1..] == [UserCopy(c)];
    assert Run(a1, [UserCopy(TextClip(t)), UserCopy(c)]) == Run(a2, [UserCopy(c)]);
    assert Run(a2, [UserCopy(c)]) == Run(a3, []);
  }

  /** Lower-casing leaves a string with no upper-case ASCII letter as it is. */
  lemma LowerPlain(s: string)
    requires forall i :: 0 <= i < |s| ==> !('A' <= s[i] <= 'Z')
    ensures Lower(s) == s
  {
  }

  /** `n` equals the lower-case name `t` up to the case of its ASCII letters. */
  predicate SameIgnoringCase(n: string, t: string)
  {
    && |n| == |t|
    && forall i :: 0 <= i < |n| ==>
         n[i] == t[i] || ('a' <= t[i] <= 'z' && n[i] as int == t[i] as int - 32)
  }

  /** Lower-casing picks out a name with no upper-case letter exactly when the
      notification name equals it up to letter case. */
  lemma LowerSelects(n: string, t: string)
    requires forall i :: 0 <= i < |t| ==> !('A' <= t[i] <= 'Z')
    ensures Lower(n) == t <==> SameIgnoringCase(n, t)
  {
  }

  /** The two well-known files are selected by their names in any letter case. */
  lemma FilesSelectedIgnoringCase(n: string)
    ensures Lower(n) == TextFile <==> SameIgnoringCase(n, TextFile)
    ensures Lower(n) == ImageFile <==> SameIgnoringCase(n, ImageFile)
  {
    LowerSelects(n, TextFile);
    LowerSelects(n, ImageFile);
  }

  /** A notification name in any letter case selects the same file. */
  lemma NamesMatchIgnoringCase()
    ensures Lower("TEXT.TXT") == TextFile
    ensures Lower("Img.PNG") == ImageFile
    ensures Lower("text.txt.tmp") != TextFile
    ensures Lower("text.txt.tmp") != ImageFile
  {
  }
}
