/**
 * The transcript view: pure projections of the message list (share text, export
 * snapshot and file name, what is rendered) and the effects its buttons emit.
 * Browser APIs become `Effect` values; whether `navigator.share` exists and how its
 * promise settles is an input.
 */
module ChatInterface {
  import opened Basics
  import opened AIContext
  import Text

  /** What the component asks the browser to do. */
  datatype Effect =
    | ShareInvoked(title: string, text: string)
    | ClipboardWrite(text: string)
    | Download(fileName: string, snapshot: ExportSnapshot)

  /** The `{ timestamp, messages }` object that is serialised for export; the ISO rendering of `timestamp` is not modelled. */
  datatype ExportSnapshot = ExportSnapshot(timestamp: int, messages: seq<ChatMessage>)

  /** The platform share surface: missing, or present with a promise that resolves or rejects. */
  datatype ShareSupport = ShareAbsent | ShareResolves | ShareRejects

  function RoleName(r: Role): string {
    match r
    case User => "user"
    case Assistant => "assistant"
  }

  /** One transcript line, `role: content`. */
  function Entry(m: ChatMessage): string {
    RoleName(m.role) + ": " + m.content
  }

  /** `Array.prototype.join(sep)`. */
  function Join(parts: seq<string>, sep: string): string {
    if |parts| == 0 then ""
    else if |parts| == 1 then parts[0]
    else parts[0] + sep + Join(parts[1..], sep)
  }

  /** Joining one more part appends the separator and that part. */
  lemma {:induction false} JoinSnoc(parts: seq<string>, last: string, sep: string)
    requires |parts| > 0
    ensures Join(parts + [last], sep) == Join(parts, sep) + sep + last
  {
    if |parts| == 1 {
      assert (parts + [last])[1..] == [last];
    } else {
      assert (parts + [last])[1..] == parts[1..] + [last];
      JoinSnoc(parts[1..], last, sep);
    }
  }

  const ShareSeparator := "\n\n"
  const ShareTitle := "IntelliSync Chat"

  /** The flattened transcript that is shared or copied. */
  function ShareText(messages: seq<ChatMessage>): string {
    Join(seq(|messages|, i requires 0 <= i < |messages| => Entry(messages[i])), ShareSeparator)
  }

  /**
   * The share text of a transcript built message by message: empty for no messages,
   * and each further message adds a blank line and its `role: content` entry at the end.
   */
  lemma ShareTextGrows(messages: seq<ChatMessage>, m: ChatMessage)
    ensures ShareText([]) == ""
    ensures ShareText([m]) == Entry(m)
    ensures |messages| > 0 ==> ShareText(messages + [m]) == ShareText(messages) + ShareSeparator + Entry(m)
  {
    var entries := seq(|messages|, i requires 0 <= i < |messages| => Entry(messages[i]));
    var longer := messages + [m];
    assert seq(|longer|, i requires 0 <= i < |longer| => Entry(longer[i])) == entries + [Entry(m)];
    if |messages| > 0 {
      JoinSnoc(entries, Entry(m), ShareSeparator);
    }
  }

  /** The share text is lossy: distinct transcripts can flatten to the same text. */
  lemma ShareTextNotInjective()
    ensures ShareText([ChatMessage("1", User, "a\n\nuser: b", 0)])
         == ShareText([ChatMessage("1", User, "a", 0), ChatMessage("2", User, "b", 0)])
  {
    var one := [ChatMessage("1", User, "a\n\nuser: b", 0)];
    var two := [ChatMessage("1", User, "a", 0), ChatMessage("2", User, "b", 0)];
    ShareTextGrows([], one[0]);
    ShareTextGrows([two[0]], two[1]);
    assert [two[0]] + [two[1]] == two;
  }

  /**
   * `shareChat`: with no share surface the optional call is skipped and nothing happens;
   * otherwise the share surface gets the share text, and only a rejection falls back to
   * copying that same text.
   */
  function ShareChat(messages: seq<ChatMessage>, support: ShareSupport): (effects: seq<Effect>)
    ensures support == ShareAbsent <==> effects == []
    ensures |effects| <= 2
    ensures forall i :: 1 <= i < |effects| ==> effects[i].ClipboardWrite?
    ensures |effects| > 0 ==> effects[0] == ShareInvoked(ShareTitle, ShareText(messages))
    ensures (exists i :: 0 <= i < |effects| && effects[i].ClipboardWrite?) <==> support == ShareRejects
    ensures forall i :: 0 <= i < |effects| && effects[i].ClipboardWrite? ==>
      effects[i].text == ShareText(messages)
  {
    var text := ShareText(messages);
    match support
    case ShareAbsent => []
    case ShareResolves => [ShareInvoked(ShareTitle, text)]
    case ShareRejects =>
      var both := [ShareInvoked(ShareTitle, text), ClipboardWrite(text)];
      assert both[1].ClipboardWrite?;
      both
  }

  /** The per-message Copy button copies exactly that message's content. */
  function CopyMessage(m: ChatMessage): (e: Effect)
    ensures e.ClipboardWrite? && e.text == m.content
  {
    ClipboardWrite(m.content)
  }

  const ExportPrefix := "intellisync-chat-"
  const ExportSuffix := ".json"

  /** The download name for a given `Date.now()` reading. */
  function ExportFileName(nowMillis: int): string {
    ExportPrefix + Text.IntToDecimal(nowMillis) + ExportSuffix
  }

  /** Recovers the clock reading from an export file name, if it has the export shape. */
  function ParseExportFileName(name: string): Option<int> {
    if |name| >= |ExportPrefix| + |ExportSuffix|
       && name[..|ExportPrefix|] == ExportPrefix
       && name[|name| - |ExportSuffix|..] == ExportSuffix
    then Text.ParseDecimal(name[|ExportPrefix|..|name| - |ExportSuffix|])
    else None
  }

  /** The file name records the clock reading, so it can be read back; distinct readings give distinct names. */
  lemma ExportFileNameRoundTrip(nowMillis: int, otherMillis: int)
    ensures ParseExportFileName(ExportFileName(nowMillis)) == Some(nowMillis)
    ensures ExportFileName(nowMillis) == ExportFileName(otherMillis) <==> nowMillis == otherMillis
  {
    var digits := Text.IntToDecimal(nowMillis);
    var name := ExportFileName(nowMillis);
    assert name[..|ExportPrefix|] == ExportPrefix;
    assert name[|name| - |ExportSuffix|..] == ExportSuffix;
    assert name[|ExportPrefix|..|name| - |ExportSuffix|] == digits;
    Text.DecimalRoundTrip(nowMillis);
    if ExportFileName(nowMillis) == ExportFileName(otherMillis) {
      var otherName := ExportFileName(otherMillis);
      assert otherName[|ExportPrefix|..|otherName| - |ExportSuffix|] == Text.IntToDecimal(otherMillis);
      Text.DecimalInjective(nowMillis, otherMillis);
    }
  }

  /**
   * `downloadChat`: one download whose snapshot holds the current list unchanged.
   * `isoMillis` is the `new Date()` reading for the timestamp field and `nowMillis`
   * the separate `Date.now()` reading for the file name.
   */
  function DownloadChat(messages: seq<ChatMessage>, isoMillis: int, nowMillis: int): (e: Effect)
    ensures e.Download?
    ensures e.snapshot.messages == messages && |e.snapshot.messages| == |messages|
    ensures e.snapshot.timestamp == isoMillis
    ensures e.fileName == ExportPrefix + Text.IntToDecimal(nowMillis) + ExportSuffix
    ensures ParseExportFileName(e.fileName) == Some(nowMillis)
  {
    ExportFileNameRoundTrip(nowMillis, nowMillis);
    Download(ExportFileName(nowMillis), ExportSnapshot(isoMillis, messages))
  }

  /** What the transcript card shows, following the nesting of its markup. */
  datatype TranscriptView = TranscriptView(
    countBadge: Option<nat>,
    controls: bool,
    placeholder: bool,
    bubbles: seq<ChatMessage>,
    thinking: bool)

  /** Renders the card: header badge and buttons, then either the placeholder or the bubbles followed by the thinking row. */
  function Render(messages: seq<ChatMessage>, isLoading: bool): TranscriptView {
    var header := if |messages| > 0 then Some(|messages|) else None;
    if |messages| == 0 && !isLoading then
      TranscriptView(header, |messages| > 0, true, [], false)
    else
      TranscriptView(header, |messages| > 0, false, messages, isLoading)
  }

  /**
   * The badge and the Export/Share/Clear buttons appear exactly when there are messages,
   * and the badge shows the count; the placeholder shows exactly for an empty, idle
   * transcript; the thinking row shows exactly while loading; every message is rendered
   * in list order; placeholder and thinking row never appear together.
   */
  lemma RenderFacts(messages: seq<ChatMessage>, isLoading: bool)
    ensures Render(messages, isLoading).countBadge.Some? <==> |messages| > 0
    ensures Render(messages, isLoading).countBadge.Some? ==> Render(messages, isLoading).countBadge.value == |messages|
    ensures Render(messages, isLoading).controls <==> |messages| > 0
    ensures Render(messages, isLoading).placeholder <==> |messages| == 0 && !isLoading
    ensures Render(messages, isLoading).thinking <==> isLoading
    ensures Render(messages, isLoading).bubbles == messages
    ensures !(Render(messages, isLoading).placeholder && Render(messages, isLoading).thinking)
  {
  }
}
