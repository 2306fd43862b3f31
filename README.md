# ClipboardShared synchronisation controller in Dafny

ClipboardShared mirrors one machine's clipboard into two files of a shared,
cloud-synchronised folder (`text.txt` and `img.png`), and mirrors changes of those
files back into the clipboard. Its core is a small controller made of static mutable
state in `ClipboardShared/Program.cs`:
- the file watcher's `EnableRaisingEvents` switch;
- the `ClipboardUpdate` event, whose subscriptions decide whether a clipboard
  notification reaches `ClipboardChangeHandler`;
- the two debounce counters `watcherCounter` and `clipboardImgCounter`.

Two handlers and one helper drive it: `ClipboardChangeHandler` (clipboard to file),
`FileChangeHandler` (file to clipboard) and `CallClipboardFun` (unsubscribe, write the
clipboard, resubscribe).

This model has four modules:
- `Host` is the environment. The clipboard is a data object with the three formats the
  program asks for: Unicode text, a bitmap and a separate "PNG" stream. The shared
  directory holds an optional `text.txt` string and optional `img.png` bytes. A trace
  lists the program's effects. Every effect records whether someone was listening when
  it happened:
  - for a file effect, whether the watcher was raising events;
  - for a clipboard write, how many handlers were subscribed.
  This is the environment rule the anti-feedback design relies on: a write comes back
  to the program as a notification only if someone was listening at that moment.
  `Host` also holds `Lower` (the `ToLower` used to match notification names) and
  `Combine` (`Path.Combine`).
- `SyncModel` is the controller as pure state transitions. There is one step function
  per handler. The contracts state what the source promises: the watcher is back on
  after every outbound step, and no effect of the program is ever heard back. They also
  state the text-over-bitmap priority, the delete-then-create of `img.png`, the
  debounce counters with their resets, and the empty-text guard.
- `ClipboardShared.Program` is a class whose fields are the program's static fields
  together with the environment. Each method does what the C# method does, statement
  by statement. Each is proved to produce exactly the state its `SyncModel` step
  function gives.
- `SyncProperties` is about sequences of events. It shows that the program never
  notices its own writes, whatever the events. It also shows that the two debounce
  counters act once per two notifications, and gives the end-to-end scenarios.

Some of the source's choices are easy to mistake for oversights; the model follows the
source as written:
- `clipboardImgCounter` is not reset by a non-image clipboard event (lemma
  `TextDoesNotResetImageCounter`).
- `watcherCounter` is not reset by an `img.png` notification.
- `img.png` notifications are not debounced at all.
- The two bitmap notifications are not compared for identity.

## Model

| member | source | states |
|---|---|---|
| Host.Combine | ClipboardShared/Program.cs:78-79 | `Path.Combine`: the directory, then exactly one separator unless the directory already ends in one, then the name; an empty directory or a rooted name yields the name itself |
| SyncModel.StartupStep | ClipboardShared/Program.cs:69-90 | with an argument count other than 1 nothing changes; otherwise `text.txt` becomes empty if it was absent and is untouched if present, `img.png` is not created, one handler is subscribed and the watcher is enabled; the creation is not watched, and from the initial process state the between-event invariant is established |
| SyncModel.ClipboardChange | ClipboardShared/Program.cs:95-130 | the watcher is enabled on return whatever the branch, and every file effect was performed unwatched; text wins over a bitmap and then `img.png` and the image counter are unchanged; a bitmap advances the counter, and the second notification resets it to 0 and, if a PNG stream is present, replaces `img.png` with exactly those bytes by delete-then-create; no PNG stream means no file change; any other format changes no file and no counter; the invariant is preserved |
| SyncModel.ClipboardChangeTimes | ClipboardShared/Program.cs:63-66 | several handler runs in a row keep the watcher enabled, leave the clipboard, the subscriptions and the text counter alone, are never heard back, and preserve the invariant |
| SyncModel.ClipboardNotify | ClipboardShared/Program.cs:63-66 | a clipboard notification with nothing subscribed is dropped and changes nothing; with the one subscription of a valid state it is exactly one run of the handler |
| SyncModel.ClipboardCall | ClipboardShared/Program.cs:164-178 | the clipboard ends up holding exactly the written data; the write happened with no handler subscribed, so it produces no outbound file write; afterwards exactly one handler is subscribed whatever the count was before; files, watcher and counters unchanged |
| SyncModel.FileChange | ClipboardShared/Program.cs:132-162 | no file is written and the image counter is untouched; for `text.txt` in any letter case the counter advances, and the second notification writes the clipboard with exactly the file's text if it is non-empty and resets the counter to 0 even when it is empty; for `img.png` the clipboard gets the image on every notification and `watcherCounter` is unchanged; any other name has no effect; reading a missing file throws; the invariant is preserved unless it throws |
| SyncProperties.Step | ClipboardShared/Program.cs:63-66 | one external event (a user's copy, a remote file write, a watcher notification) handled by the running program is never heard back and keeps the invariant unless an `img.png` notification finds no `img.png` |
| SyncProperties.RunHasNoFeedback | ClipboardShared/Program.cs:97 | for every sequence of events, none of the program's own file or clipboard writes raises a notification back into it, and the invariant (watcher on, one subscription, both counters 0 or 1) holds between events |
| SyncProperties.BitmapStep | ClipboardShared/Program.cs:106-127 | with a PNG stream on the clipboard, one bitmap notification flips the image counter between 0 and 1 and writes `img.png` exactly when the counter was 1 |
| SyncProperties.BitmapCommitsEverySecond | ClipboardShared/Program.cs:106-127 | with a PNG stream on the clipboard, n bitmap notifications write `img.png` once per two of them, including the one already counted, and leave the counter at the remainder |
| SyncProperties.TextCopiedEverySecond | ClipboardShared/Program.cs:136-151 | n `text.txt` notifications write the clipboard once per two of them and only for non-empty text, leave the counter at the remainder, never throw and never write a file |
| SyncProperties.StartupOnEmptyDirectory | ClipboardShared/Program.cs:80-83 | starting on a directory with neither file leaves an empty `text.txt` and no `img.png` |
| SyncProperties.TextRoundTrip | ClipboardShared/Program.cs:100-105 | text copied on one instance is written to `text.txt` unchanged; on the other instance the remote write and its two notifications put exactly that text on the clipboard, with no file written there |
| SyncProperties.ImageSent | ClipboardShared/Program.cs:106-124 | two bitmap notifications from a zero counter leave `img.png` holding exactly the PNG stream |
| SyncProperties.ImageNotified | ClipboardShared/Program.cs:153-160 | one watcher notification for `img.png`, with the file present, is handled at once with no debounce: one clipboard write of that image with the handler unsubscribed |
| SyncProperties.ImageReceived | ClipboardShared/Program.cs:153-160 | a remote `img.png` and one notification put the image decoded from it on the clipboard |
| SyncProperties.TextDoesNotResetImageCounter | ClipboardShared/Program.cs:100-109 | a text copy between two bitmap notifications leaves the image counter alone, so the second bitmap commits `img.png` |
| Host.Lower | ClipboardShared/Program.cs:134 | `ToLower` keeps the length, turns each upper-case ASCII letter into its lower-case letter and keeps every other character, so no upper-case ASCII letter is left |
| SyncProperties.LowerSelects | ClipboardShared/Program.cs:134-136 | for a name `t` with no upper-case letter, the lower-cased notification name equals `t` exactly when it has `t`'s length and each character is `t`'s character or, where that is a lower-case letter, its upper-case form |
| SyncProperties.FilesSelectedIgnoringCase | ClipboardShared/Program.cs:134-136 | a notification name selects `text.txt`, and likewise `img.png`, exactly when it equals that file name up to the case of its letters |
| SyncProperties.NamesMatchIgnoringCase | ClipboardShared/Program.cs:134-136 | `TEXT.TXT` selects the text file and `Img.PNG` the image file, while a longer name selects neither |
| ClipboardShared.Program.constructor | ClipboardShared/Program.cs:53-61 | the static initial state: the watcher raises no events, nothing is subscribed, both counters are 0 |
| ClipboardShared.Program.Startup | ClipboardShared/Program.cs:69-90 | performs `StartupStep` and sets `directory`, `textPath` and `imgPath` from the single argument with `Combine` |
| ClipboardShared.Program.OnClipboardUpdate | ClipboardShared/Program.cs:63-66 | performs `ClipboardNotify`: one handler run per subscription in the invocation list |
| ClipboardShared.Program.ClipboardChangeHandler | ClipboardShared/Program.cs:95-130 | performs `ClipboardChange` and leaves the watcher enabled |
| ClipboardShared.Program.FileChangeHandler | ClipboardShared/Program.cs:132-162 | performs `FileChange` and reports whether an exception escaped |
| ClipboardShared.Program.CallClipboardFun | ClipboardShared/Program.cs:164-178 | performs `ClipboardCall`, ending with exactly one subscription |

## Left out

- The native clipboard listener and the message-only window (`NativeMethods`, `NotificationForm`, `WndProc`) are left out. A `WM_CLIPBOARDUPDATE` is the call of `OnClipboardUpdate`.
- Asynchronous delivery is left out. Notifications are treated as raised at the moment of the write and decided by who is listening then. In the real program, `WM_CLIPBOARDUPDATE` is queued for the message loop, and watcher events arrive on pool threads, so whether suppression works against those races is not modelled.
- The STA thread (`Start`/`Join`) in `CallClipboardFun` is modelled as a synchronous call. The action runs to completion before resubscription.
- Image encoding and decoding are left out. Image content is opaque bytes, and a bitmap read from `img.png` stands for the file's bytes. The `Bitmap` constructor is modelled as throwing only when `img.png` is missing. Its failure on incomplete or invalid bytes is not modelled.
- `Clipboard.SetImage` is assumed to place a bitmap and no "PNG" stream. `Clipboard.SetText` is assumed to place Unicode text only.
- Only two exceptions are modelled: `File.ReadAllText` on a missing `text.txt` and `new Bitmap` on a missing `img.png` in `FileChangeHandler`. Each is reported as an outcome (`Threw`). A run stops there, and what the process does after it is not modelled further.
- ClipboardChange: only normal completion is modelled. `Clipboard.GetDataObject`, `File.WriteAllText`, `File.Delete` and `new FileStream` can throw, and the handler has no `try`/`finally`. In the source such an exception leaves `watcher.EnableRaisingEvents` false, so "the watcher is enabled whatever the branch" holds only when the handler completes normally.
- ClipboardCall: only normal completion is modelled. `Clipboard.SetText` and `Clipboard.SetImage` on the STA thread can throw. In the source that exception escapes the thread rather than returning to `CallClipboardFun`, whose resubscription then never happens.
- The directory given at startup is assumed to exist, and external deletion of the shared files is not modelled. `Path.Combine`'s rejection of invalid path characters and the exceptions of `File.Create` are not modelled.
- Host.Lower: folds only ASCII `A`-`Z`. The culture-sensitive `ToLower` of other letters is not modelled, including the Turkish dotted and dotless I.
- A `GetData(UnicodeText)` that yields null is not modelled. Present text is always a string.
- Console output and colours are side output only and are left out.
- `main.js` is not part of this model. It is the Electron front end, and its file handler is a pass-through with no suppression or debounce state.
- Text is kept as a string. The UTF-8 encoding done by `File.WriteAllText` and `File.ReadAllText` is not modelled.
