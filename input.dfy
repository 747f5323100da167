/** The message composer (`ChatInput`): the draft it holds, the gate that decides
    whether a send goes through, the Enter-key rule, which controls are disabled, and
    the height the textarea grows to. */
module Input {
  import opened Text

  /** Tallest the textarea grows, in pixels. */
  const MaxHeight: nat := 200

  /** What `handleSend` forwards for a draft: the trimmed draft, and only when it is
      non-empty and no reply is pending. What it forwards is never blank and carries no
      surrounding whitespace. */
  function SendGate(draft: string, waiting: bool): (r: Option<string>)
    ensures r.Some? <==> !waiting && exists i :: 0 <= i < |draft| && !IsWhitespace(draft[i])
    ensures r.Some? ==> r.value == Trim(draft)
    ensures r.Some? ==> (r.value != ""
      && !IsWhitespace(r.value[0]) && !IsWhitespace(r.value[|r.value| - 1]))
  {
    TrimEmptyIff(draft);
    var t := Trim(draft);
    if t != "" && !waiting then Some(t) else None
  }

  /** The send button's `disabled` expression; it is disabled exactly when pressing it
      would do nothing. */
  function SendDisabled(draft: string, waiting: bool): (disabled: bool)
    ensures disabled <==> SendGate(draft, waiting).None?
  {
    Trim(draft) == "" || waiting
  }

  /** Enter without Shift submits; every other key, and Shift+Enter, types. */
  predicate TriggersSend(key: string, shiftKey: bool) {
    key == "Enter" && !shiftKey
  }

  /** `Math.min(scrollHeight, 200)`: the content height, capped. */
  function TextareaHeight(scrollHeight: nat): (h: nat)
    ensures h <= MaxHeight && h <= scrollHeight
    ensures h == scrollHeight || h == MaxHeight
  {
    if scrollHeight < MaxHeight then scrollHeight else MaxHeight
  }

  /** Which of the composer's controls are disabled. */
  datatype Controls = Controls(textarea: bool, attach: bool, image: bool, mic: bool, send: bool)

  /** While a reply is pending every control is disabled; otherwise only the send button
      can be, and it is exactly when the draft is blank. */
  function DisabledControls(draft: string, waiting: bool): (c: Controls)
    ensures waiting ==> c == Controls(true, true, true, true, true)
    ensures !waiting ==> !c.textarea && !c.attach && !c.image && !c.mic
    ensures c.send <==> SendGate(draft, waiting).None?
  {
    Controls(waiting, waiting, waiting, waiting, SendDisabled(draft, waiting))
  }

  class ChatInput {
    /** The `message` state: the text in the textarea. */
    var draft: string
    /** The textarea's inline height: `None` is "auto", `Some(px)` a pixel height. */
    var height: Option<nat>

    constructor ()
      ensures draft == "" && height == None
    {
      draft := "";
      height := None;
    }

    /** The textarea's `onChange`. */
    method Change(value: string)
      modifies this`draft
      ensures draft == value
    {
      draft := value;
    }

    /** The auto-resize effect that runs after the draft changes; the rendered content
        height is a parameter. */
    method Resize(scrollHeight: nat)
      modifies this`height
      ensures height == Some(TextareaHeight(scrollHeight))
    {
      height := Some(TextareaHeight(scrollHeight));
    }

    /** `handleSend`: forwards what the gate lets through and then clears the draft and
        resets the height; when the gate closes nothing changes. */
    method HandleSend(waiting: bool) returns (forwarded: Option<string>)
      modifies this
      ensures forwarded == SendGate(old(draft), waiting)
      ensures forwarded.Some? ==> draft == "" && height == None
      ensures forwarded.None? ==> draft == old(draft) && height == old(height)
    {
      var t := Trim(draft);
      if t != "" && !waiting {
        forwarded := Some(t);
        draft := "";
        height := None;
      } else {
        forwarded := None;
      }
    }

    /** `handleKeyDown`: Enter without Shift prevents the newline and attempts a send;
        any other key leaves the composer to the textarea. */
    method HandleKeyDown(key: string, shiftKey: bool, waiting: bool)
      returns (prevented: bool, forwarded: Option<string>)
      modifies this
      ensures prevented == TriggersSend(key, shiftKey)
      ensures prevented ==> forwarded == SendGate(old(draft), waiting)
      ensures !prevented ==> forwarded.None?
      ensures forwarded.Some? ==> draft == "" && height == None
      ensures forwarded.None? ==> draft == old(draft) && height == old(height)
    {
      prevented := key == "Enter" && !shiftKey;
      if prevented {
        forwarded := HandleSend(waiting);
      } else {
        forwarded := None;
      }
    }
  }
}
