/** One chat bubble (`ChatMessage`): which attachment element a message shows for its
    file's media type, whether the typing indicator replaces the text, and when the
    copy button appears. The view is modelled as a value; layout, icons and the
    entry animation are not. */
module Bubble {
  import opened Text

  datatype Role = User | Assistant

  /** The component's props; `None` is a prop that was not passed. */
  datatype Props = Props(
    role: Role,
    content: string,
    timestamp: Option<string>,
    isLoading: Option<bool>,
    showTypingIndicator: Option<bool>,
    index: nat,
    fileUrl: Option<string>,
    fileType: Option<string>)

  /** The element `renderFileAttachment` returns. */
  datatype Attachment =
    | NoAttachment
    | Image(src: string)
    | Video(src: string, sourceType: string)
    | Audio(src: string, sourceType: string)
    | Download(href: string)

  datatype Body = TypingIndicator | Text(text: string)

  /** What a bubble shows: its body, its attachment, its time label, its copy button. */
  datatype View = View(body: Body, attachment: Attachment, timestamp: Option<string>, copyButton: bool)

  /** The ordered `startsWith` dispatch on the media type. Each kind is chosen exactly
      under its own prefix test and the failure of the earlier ones; every element
      points at `fileUrl`, and the media elements carry `fileType` as their source type. */
  function RenderFileAttachment(fileUrl: Option<string>, fileType: Option<string>): (a: Attachment)
    ensures a == NoAttachment <==> !Filled(fileUrl) || !Filled(fileType)
    ensures a.Image? <==> Filled(fileUrl) && Filled(fileType) && StartsWith(fileType.value, "image/")
    ensures a.Video? <==> Filled(fileUrl) && Filled(fileType) && StartsWith(fileType.value, "video/")
    ensures a.Audio? <==> Filled(fileUrl) && Filled(fileType) && StartsWith(fileType.value, "audio/")
    ensures a.Download? <==> (Filled(fileUrl) && Filled(fileType)
      && !StartsWith(fileType.value, "image/") && !StartsWith(fileType.value, "video/")
      && !StartsWith(fileType.value, "audio/"))
    ensures a.Image? || a.Video? || a.Audio? ==> a.src == fileUrl.value
    ensures a.Download? ==> a.href == fileUrl.value
    ensures a.Video? || a.Audio? ==> a.sourceType == fileType.value
  {
    if !Filled(fileUrl) || !Filled(fileType) then NoAttachment
    else
      var url, t := fileUrl.value, fileType.value;
      if StartsWith(t, "image/") then Image(url)
      else if StartsWith(t, "video/") then Video(url, t)
      else if StartsWith(t, "audio/") then Audio(url, t)
      else Download(url)
  }

  /** Position of the first '/' in a media type, if any. */
  function SlashIndex(t: string): (r: Option<nat>)
    ensures r.Some? ==> (r.value < |t| && t[r.value] == '/'
      && forall i :: 0 <= i < r.value ==> t[i] != '/')
    ensures r.None? ==> forall i :: 0 <= i < |t| ==> t[i] != '/'
  {
    if t == [] then None
    else if t[0] == '/' then Some(0)
    else match SlashIndex(t[1..])
      case None => None
      case Some(k) => Some(k + 1)
  }

  /** The top-level type of a media type: the text before its first '/'
      (section 5.1 of RFC 2045), when there is a '/'. */
  function TopLevelType(t: string): Option<string> {
    match SlashIndex(t)
    case None => None
    case Some(k) => Some(t[..k])
  }

  /** A reference reading of the dispatch: the element depends only on the top-level
      type, so the order of the prefix tests does not matter and no type matches two. */
  lemma AttachmentByTopLevelType(url: string, t: string)
    requires url != "" && t != ""
    ensures RenderFileAttachment(Some(url), Some(t)) ==
      match TopLevelType(t)
      case Some("image") => Image(url)
      case Some("video") => Video(url, t)
      case Some("audio") => Audio(url, t)
      case _ => Download(url)
  {
    PrefixIsTopLevelType(t, "image/");
    PrefixIsTopLevelType(t, "video/");
    PrefixIsTopLevelType(t, "audio/");
    assert "image/"[..5] == "image" && "video/"[..5] == "video" && "audio/"[..5] == "audio";
  }

  /** A prefix of the form "xxxxx/" names exactly the top-level type "xxxxx". */
  lemma PrefixIsTopLevelType(t: string, p: string)
    requires |p| == 6 && p[5] == '/' && forall i :: 0 <= i < 5 ==> p[i] != '/'
    ensures StartsWith(t, p) <==> TopLevelType(t) == Some(p[..5])
  {
    if StartsWith(t, p) {
      assert t[5] == '/' && forall i :: 0 <= i < 5 ==> t[i] == p[i];
      assert SlashIndex(t) == Some(5);
      assert t[..5] == p[..5];
    }
    if TopLevelType(t) == Some(p[..5]) {
      var k := SlashIndex(t).value;
      assert |t[..k]| == k && |p[..5]| == 5;
      assert t[..6] == p;
    }
  }

  /** The copy button rule: assistant bubbles that are not loading and have text. */
  predicate ShowCopyButton(role: Role, isLoading: bool, content: string) {
    role == Assistant && !isLoading && content != ""
  }

  /** Renders a bubble. `isLoading` and `showTypingIndicator` default to false; the
      typing indicator, when asked for, replaces the content text; the time label is
      shown only when it is non-empty. */
  function Render(p: Props): (v: View)
    ensures p.showTypingIndicator == Some(true) ==> v.body == TypingIndicator
    ensures p.showTypingIndicator != Some(true) ==> v.body == Text(p.content)
    ensures v.copyButton <==> p.role == Assistant && p.isLoading != Some(true) && p.content != ""
    ensures v.attachment == RenderFileAttachment(p.fileUrl, p.fileType)
    ensures v.timestamp.Some? <==> Filled(p.timestamp)
    ensures v.timestamp.Some? ==> v.timestamp == p.timestamp
  {
    var typing := p.showTypingIndicator.GetOr(false);
    var loading := p.isLoading.GetOr(false);
    View(
      if typing then TypingIndicator else Text(p.content),
      RenderFileAttachment(p.fileUrl, p.fileType),
      if Filled(p.timestamp) then p.timestamp else None,
      ShowCopyButton(p.role, loading, p.content))
  }
}
