// The interview-bot page's own state: the session clock that counts seconds while a
// recording runs, its `mm:ss` display, and the assistant chat, where every non-blank user
// message is answered with one canned reply.

module VideoBot {
  import opened JsCommon
  import opened JsText

  /**
   * `formatTime`: whole minutes and the remaining seconds, each padded to two digits. However
   * long the session, the text ends in a colon and two digits, with at least two before it.
   */
  function FormatTime(seconds: nat): (r: string)
    ensures |r| >= 5 && r[|r| - 3] == ':' && IsDigit(r[|r| - 2]) && IsDigit(r[|r| - 1])
  {
    var mins := PadStart2(Decimal(seconds / 60));
    var secs := PadStart2(Decimal(seconds % 60));
    PaddedDecimal(seconds % 60);
    assert |mins| >= 2;
    mins + ":" + secs
  }

  /** Under a hundred minutes the display is exactly five characters, the colon in the middle. */
  lemma FiveCharacters(seconds: nat)
    requires seconds < 6000
    ensures |FormatTime(seconds)| == 5 && FormatTime(seconds)[2] == ':'
  {
    PaddedDecimal(seconds / 60);
    PaddedDecimal(seconds % 60);
  }

  /** The display reads back as the minutes and seconds of the count, however long the session. */
  lemma ClockRoundTrip(seconds: nat)
    ensures ParseClock(FormatTime(seconds)) == Some((seconds / 60, seconds % 60))
  {
    var mins := seconds / 60;
    var field := PadStart2(Decimal(mins));
    if mins < 100 {
      PaddedDecimal(mins);
    } else {
      assert mins >= 10;
      assert |Decimal(mins)| >= 2;
      DecimalRoundTrip(mins);
    }
    ParseClockOf(field, mins, seconds % 60);
  }

  datatype Role = User | Assistant

  datatype ChatEntry = ChatEntry(role: Role, message: string)

  const Greeting := "Hi! I'm your AI interview assistant. How can I help you today?"

  const CannedReply := "Thank you for your question! I'm analyzing your interview performance and will provide specific feedback to help you improve."

  /** The chat after sending `message`: a blank one is ignored; otherwise it is kept as typed and answered. */
  function ChatAfter(history: seq<ChatEntry>, message: string): (r: seq<ChatEntry>)
    ensures Trim(message) == "" ==> r == history
    ensures Trim(message) != "" ==>
              |r| == |history| + 2 && r[..|history|] == history &&
              r[|history|] == ChatEntry(User, message) && r[|history| + 1].role == Assistant
  {
    if Trim(message) == "" then history
    else history + [ChatEntry(User, message), ChatEntry(Assistant, CannedReply)]
  }

  /** The chat alternates: the assistant speaks at every even position, the user at every odd one. */
  predicate Alternates(history: seq<ChatEntry>)
  {
    |history| % 2 == 1 &&
    forall k :: 0 <= k < |history| ==> history[k].role == (if k % 2 == 0 then Assistant else User)
  }

  lemma ChatAfterAlternates(history: seq<ChatEntry>, message: string)
    requires Alternates(history)
    ensures Alternates(ChatAfter(history, message))
  {
    if Trim(message) != "" {
      ExchangeAlternates(history, message, CannedReply);
    }
  }

  /** A user message followed by an answer keeps an alternating chat alternating. */
  lemma ExchangeAlternates(history: seq<ChatEntry>, question: string, answer: string)
    requires Alternates(history)
    ensures Alternates(history + [ChatEntry(User, question), ChatEntry(Assistant, answer)])
  {
    var r := history + [ChatEntry(User, question), ChatEntry(Assistant, answer)];
    var n := |history|;
    assert n % 2 == 1 && (n + 1) % 2 == 0 && (n + 2) % 2 == 1;
    forall k | 0 <= k < |r|
      ensures r[k].role == (if k % 2 == 0 then Assistant else User)
    {
      if k < n {
        assert r[k] == history[k];
      }
    }
  }

  class Session {
    var sessionTime: nat
    var timerRunning: bool
    var chatMessage: string
    var chatHistory: seq<ChatEntry>

    predicate Valid()
      reads this
    {
      Alternates(chatHistory)
    }

    constructor ()
      ensures Valid()
      ensures sessionTime == 0 && !timerRunning && chatMessage == "" && chatHistory == [ChatEntry(Assistant, Greeting)]
    {
      sessionTime := 0;
      timerRunning := false;
      chatMessage := "";
      chatHistory := [ChatEntry(Assistant, Greeting)];
    }

    /**
     * The timer effect, rerun whenever `isRecording` changes: the previous interval is
     * cleared and a new one started only while recording. The count is never reset.
     */
    method RecordingChanged(isRecording: bool)
      modifies this
      ensures timerRunning == isRecording
      ensures sessionTime == old(sessionTime) && chatHistory == old(chatHistory) && chatMessage == old(chatMessage)
    {
      timerRunning := isRecording;
    }

    /** One second of the interval: only a running timer ticks. */
    method Tick()
      requires timerRunning
      modifies this
      ensures sessionTime == old(sessionTime) + 1
      ensures timerRunning && chatHistory == old(chatHistory) && chatMessage == old(chatMessage)
    {
      sessionTime := sessionTime + 1;
    }

    method Type(message: string)
      modifies this
      ensures chatMessage == message
      ensures sessionTime == old(sessionTime) && timerRunning == old(timerRunning) && chatHistory == old(chatHistory)
    {
      chatMessage := message;
    }

    /** `sendMessage`: a blank message does nothing; otherwise it and the reply are appended and the input cleared. */
    method SendMessage()
      requires Valid()
      modifies this
      ensures Valid()
      ensures chatHistory == ChatAfter(old(chatHistory), old(chatMessage))
      ensures chatMessage == (if Trim(old(chatMessage)) == "" then old(chatMessage) else "")
      ensures sessionTime == old(sessionTime) && timerRunning == old(timerRunning)
    {
      if Trim(chatMessage) == "" {
        return;
      }
      ChatAfterAlternates(chatHistory, chatMessage);
      chatHistory := chatHistory + [ChatEntry(User, chatMessage), ChatEntry(Assistant, CannedReply)];
      chatMessage := "";
    }
  }

  /** The clock shows how many ticks the running timer has made since the session began. */
  method TimedSession(ticks: nat) returns (shown: string)
    ensures ParseClock(shown) == Some((ticks / 60, ticks % 60))
  {
    var s := new Session();
    s.RecordingChanged(true);
    var i := 0;
    while i < ticks
      invariant 0 <= i <= ticks
      invariant s.timerRunning && s.sessionTime == i
    {
      s.Tick();
      i := i + 1;
    }
    shown := FormatTime(s.sessionTime);
    ClockRoundTrip(s.sessionTime);
  }
}
