/**
  The environment the clipboard-sharing program runs in: the OS clipboard as a
  data object with the three formats the program asks about, the shared
  directory with its two well-known files, and the trace of effects the program
  performs on them. Each effect records whether someone was listening when it
  happened, because that decides whether the effect comes back to the program
  as a notification.
  */
module Host {

  datatype Option<T> = None | Some(value: T)

  /** Opaque byte content: a PNG stream, a file's bytes, a bitmap's pixels. */
  type Bytes = seq<bv8>

  /** What Clipboard.GetDataObject() answers. Each field is None when that
      format is not present. `text` is DataFormats.UnicodeText. `bitmap` is
      DataFormats.Bitmap, whose pixels are opaque here. `png` is the separate
      "PNG" stream that some producers also place on the clipboard. */
  datatype ClipData = ClipData(text: Option<string>, bitmap: Option<Bytes>, png: Option<Bytes>)

  /** What Clipboard.SetText(t) places on the clipboard. */
  function TextClip(t: string): ClipData
  {
    ClipData(Some(t), None, None)
  }

  /** What Clipboard.SetImage(new Bitmap(path)) places on the clipboard: a
      bitmap decoded from the file's bytes, which stand for its pixels here. No
      "PNG" stream is set. */
  function ImageClip(png: Bytes): ClipData
  {
    ClipData(None, Some(png), None)
  }

  const TextFile: string := "text.txt"
  const ImageFile: string := "img.png"

  /** The shared directory as the program sees it: `text.txt` holds a string,
      `img.png` holds bytes, and either may be absent. */
  datatype Directory = Directory(text: Option<string>, image: Option<Bytes>)

  /** One effect of the program on its environment. `watched` records whether
      the file watcher was raising events when a file was touched. `listeners`
      records how many handlers were subscribed to clipboard updates when the
      clipboard was written. */
  datatype Effect =
    | TextWritten(text: string, watched: bool)
    | ImageDeleted(watched: bool)
    | ImageWritten(png: Bytes, watched: bool)
    | ClipboardWritten(data: ClipData, listeners: nat)

  /** An effect that raises no notification back into the program. */
  predicate Silent(e: Effect)
  {
    match e
    case TextWritten(_, w) => !w
    case ImageDeleted(w) => !w
    case ImageWritten(_, w) => !w
    case ClipboardWritten(_, n) => n == 0
  }

  /** Lower-casing of one character: ASCII letters only. */
  function LowerChar(c: char): char
  {
    if 'A' <= c <= 'Z' then (c as int + 32) as char else c
  }

  /** String.ToLower() on the name a file notification carries: every
      upper-case ASCII letter becomes its lower-case letter, every other
      character stays, and no upper-case ASCII letter is left. */
  function Lower(s: string): (r: string)
    ensures |r| == |s|
    ensures forall i :: 0 <= i < |s| ==>
      r[i] == s[i] || ('A' <= s[i] <= 'Z' && r[i] as int == s[i] as int + 32)
    ensures forall i :: 0 <= i < |s| && 'A' <= s[i] <= 'Z' ==> r[i] != s[i]
    ensures forall i :: 0 <= i < |r| ==> !('A' <= r[i] <= 'Z')
  {
    seq(|s|, i requires 0 <= i < |s| => LowerChar(s[i]))
  }

  /** Characters after which Path.Combine adds no separator. */
  predicate IsSeparator(c: char)
  {
    c == '\\' || c == '/' || c == ':'
  }

  /** Path.IsPathRooted on Windows. */
  predicate IsRooted(p: string)
  {
    (|p| >= 1 && (p[0] == '\\' || p[0] == '/')) || (|p| >= 2 && p[1] == ':')
  }

  /** Path.Combine(dir, name) on Windows. */
  function Combine(dir: string, name: string): (p: string)
    ensures name == [] ==> p == dir
    ensures name != [] && (dir == [] || IsRooted(name)) ==> p == name
    ensures name != [] && dir != [] && !IsRooted(name) ==>
      |dir| + |name| <= |p| <= |dir| + |name| + 1
      && p[..|dir|] == dir && p[|p| - |name|..] == name
      && IsSeparator(p[|p| - |name| - 1])
    ensures name != [] && dir != [] && !IsRooted(name) ==>
      |p| == |dir| + |name| + (if IsSeparator(dir[|dir| - 1]) then 0 else 1)
    ensures name != [] && dir != [] && !IsRooted(name) && !IsSeparator(dir[|dir| - 1]) ==>
      p[|dir|] == '\\'
  {
    if name == [] then dir
    else if dir == [] || IsRooted(name) then name
    else if IsSeparator(dir[|dir| - 1]) then dir + name
    else dir + "\\" + name
  }
}
