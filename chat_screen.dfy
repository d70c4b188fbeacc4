/** The user's chat with the studio (components/ChatScreen.tsx): sending text and
    images into the shared thread, and marking the thread read when it is opened. */
module ChatScreen {
  import opened Types
  import opened Text

  /** `m-${Date.now()}`. */
  function MessageId(now: nat): string
  {
    "m-" + NatToString(now)
  }

  /** `attachmentUrl` is truthy: present and non-empty. */
  predicate HasUrl(attachmentUrl: Option<string>)
  {
    attachmentUrl.Some? && attachmentUrl.value != []
  }

  /** `handleSend`: None where it returns early (blank text and no attachment);
      otherwise the thread handed to `onThreadChange`, with the user's message
      appended and the thread marked read. The text is stored untrimmed. */
  function SendMessage(thread: ChatThread, text: string, attachmentUrl: Option<string>, now: nat): Option<ChatThread>
  {
    if Trim(text) == [] && !HasUrl(attachmentUrl) then None
    else
      var attachment := if HasUrl(attachmentUrl) then Some(Attachment(ImageAttachment, attachmentUrl.value, None)) else None;
      var message := Message(MessageId(now), FromUser, text, now, attachment);
      Some(thread.(messages := thread.messages + [message], unread := false))
  }

  lemma SendMessageSpec(thread: ChatThread, text: string, attachmentUrl: Option<string>, now: nat)
    ensures var r := SendMessage(thread, text, attachmentUrl, now);
      (r.None? <==> IsBlank(text) && !HasUrl(attachmentUrl)) &&
      (r.Some? ==>
        var t := r.value;
        |t.messages| == |thread.messages| + 1 &&
        t.messages[..|thread.messages|] == thread.messages &&
        var m := t.messages[|thread.messages|];
        m.sender == FromUser && m.text == text && m.timestamp == now && m.id == MessageId(now) &&
        (m.attachment.Some? <==> HasUrl(attachmentUrl)) &&
        (m.attachment.Some? ==> m.attachment.value.kind == ImageAttachment &&
                                m.attachment.value.url == attachmentUrl.value) &&
        !t.unread && t.userId == thread.userId && t.userName == thread.userName)
  {
    TrimEmptyIffBlank(text);
    var r := SendMessage(thread, text, attachmentUrl, now);
    if r.Some? {
      assert r.value.messages[..|thread.messages|] == thread.messages;
    }
  }

  /** Message ids are "m-" followed by the clock's digits, so two sends in the same
      millisecond share an id and sends at different times never do. */
  lemma MessageIdsFollowClock(t1: nat, t2: nat)
    ensures MessageId(t1) == MessageId(t2) <==> t1 == t2
  {
    if MessageId(t1) == MessageId(t2) {
      assert NatToString(t1) == MessageId(t1)[2..];
      assert NatToString(t2) == MessageId(t2)[2..];
      NatToStringInjective(t1, t2);
    }
  }

  /** The mark-read timer as written: it hands over the thread captured when the screen
      mounted, with `unread` cleared, whatever the thread has become since. */
  function MarkReadFromMount(mountThread: ChatThread, current: ChatThread): ChatThread
  {
    mountThread.(unread := false)
  }

  /** A message sent in the half second between opening an unread thread and the
      timer firing is lost when the timer hands back the thread it captured. */
  lemma StaleMarkReadDropsMessage(thread: ChatThread, now: nat)
    requires thread.unread
    ensures var sent := SendMessage(thread, "Hola", None, now);
      sent.Some? &&
      |MarkReadFromMount(thread, sent.value).messages| == |sent.value.messages| - 1
  {
    assert !IsSpace('H');
    assert Trim("Hola") != [] by {
      TrimEmptyIffBlank("Hola");
    }
  }

  /** The mark-read update applied to the current thread, as the timer evidently means
      it: only `unread` changes. */
  function MarkRead(current: ChatThread): ChatThread
  {
    current.(unread := false)
  }

  /** Marking read keeps every message, whenever the timer fires, and after a send it
      changes nothing, since sending already marks the thread read. */
  lemma MarkReadKeepsMessages(thread: ChatThread, text: string, attachmentUrl: Option<string>, now: nat)
    ensures MarkRead(thread).messages == thread.messages && !MarkRead(thread).unread
    ensures MarkRead(thread).userId == thread.userId && MarkRead(thread).userName == thread.userName
    ensures var sent := SendMessage(thread, text, attachmentUrl, now);
      sent.Some? ==> MarkRead(sent.value) == sent.value &&
                     SendMessage(MarkRead(thread), text, attachmentUrl, now) == sent
  {
  }

  /** The screen's state: the thread prop as the shell last passed it, the thread the
      mount effect captured (its dependency list is empty, so it never sees a newer one),
      the text being typed, and whether the mark-read timer is still pending. */
  class ChatSession {
    var thread: ChatThread
    var mountThread: ChatThread
    var newMessage: string
    var markReadPending: bool

    /** Mounting the screen captures the thread and starts the mark-read timer when the
        thread is unread. */
    constructor (t: ChatThread)
      ensures thread == t && mountThread == t && newMessage == [] && markReadPending == t.unread
    {
      thread, mountThread, newMessage, markReadPending := t, t, [], t.unread;
    }

    method Type(text: string)
      modifies this
      ensures newMessage == text && thread == old(thread) && markReadPending == old(markReadPending)
      ensures mountThread == old(mountThread)
    {
      newMessage := text;
    }

    /** `handleFormSubmit`: send the typed text; the input is cleared when it was sent. */
    method SubmitForm(now: nat) returns (threadChange: Option<ChatThread>)
      modifies this
      ensures threadChange == SendMessage(old(thread), old(newMessage), None, now)
      ensures threadChange.Some? ==> thread == threadChange.value && newMessage == []
      ensures threadChange.None? ==> thread == old(thread) && newMessage == old(newMessage)
      ensures markReadPending == old(markReadPending) && mountThread == old(mountThread)
    {
      threadChange := SendMessage(thread, newMessage, None, now);
      if threadChange.Some? {
        thread := threadChange.value;
        newMessage := [];
      }
    }

    /** `handleFileChange` once the reader has produced the image's data URL: an image
        message with empty text. Sending it also clears whatever text was typed. */
    method ImageLoaded(dataUrl: string, now: nat) returns (threadChange: Option<ChatThread>)
      modifies this
      ensures threadChange == SendMessage(old(thread), [], Some(dataUrl), now)
      ensures threadChange.Some? <==> dataUrl != []
      ensures threadChange.Some? ==> thread == threadChange.value && newMessage == []
      ensures threadChange.None? ==> thread == old(thread) && newMessage == old(newMessage)
      ensures markReadPending == old(markReadPending) && mountThread == old(mountThread)
    {
      assert IsBlank([]);
      SendMessageSpec(thread, [], Some(dataUrl), now);
      threadChange := SendMessage(thread, [], Some(dataUrl), now);
      if threadChange.Some? {
        thread := threadChange.value;
        newMessage := [];
      }
    }

    /** The mark-read timer, half a second after mounting an unread thread: it hands the
        shell the thread captured at mount, marked read, which then becomes the prop;
        whatever was sent in the meantime is gone (`StaleMarkReadDropsMessage`). */
    method MarkReadTimerFired() returns (threadChange: ChatThread)
      requires markReadPending
      modifies this
      ensures threadChange == MarkReadFromMount(mountThread, old(thread)) && thread == threadChange
      ensures thread.messages == mountThread.messages && !thread.unread
      ensures thread.userId == mountThread.userId && thread.userName == mountThread.userName
      ensures !markReadPending && newMessage == old(newMessage) && mountThread == old(mountThread)
    {
      threadChange := MarkReadFromMount(mountThread, thread);
      thread := threadChange;
      markReadPending := false;
    }
  }
}
