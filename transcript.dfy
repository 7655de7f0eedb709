/**
 * The text prompt sent when a message has no image: an optional system line, one
 * line per earlier turn, then the new message and an open "Assistant:" cue.
 */
module Transcript {

  import opened Records

  const SystemPrefix: string := "System: "
  const HumanPrefix: string := "Human: "
  const AssistantPrefix: string := "Assistant: "
  const AssistantCue: string := "\nAssistant:"

  /** "Human: " for a user turn, "Assistant: " for a turn with any other role. */
  function RolePrefix(role: string): string {
    if role == UserRole then HumanPrefix else AssistantPrefix
  }

  function TurnLine(t: Turn): string {
    RolePrefix(t.role) + t.parts + "\n"
  }

  /** `"System: " + instruction + "\n\n"`, or nothing for an empty instruction. */
  function SystemBlock(instruction: string): string {
    if instruction != "" then SystemPrefix + instruction + "\n\n" else ""
  }

  /** The lines of the history, in order, one per turn. */
  function HistoryText(history: seq<Turn>): string {
    if |history| == 0 then ""
    else TurnLine(history[0]) + HistoryText(history[1..])
  }

  /** The final part of every transcript: the new message and the open cue. */
  function Question(msg: string): string {
    HumanPrefix + msg + AssistantCue
  }

  /** The whole transcript, as a specification of BuildTranscript. */
  function TranscriptOf(instruction: string, history: seq<Turn>, msg: string): string {
    SystemBlock(instruction) + HistoryText(history) + Question(msg)
  }

  /** Builds the transcript by appending to a string: the system block, then one line
      per turn, then the question. */
  method BuildTranscript(instruction: string, history: seq<Turn>, msg: string) returns (conversation: string)
    ensures conversation == TranscriptOf(instruction, history, msg)
  {
    conversation := "";
    if instruction != "" {
      conversation := conversation + (SystemPrefix + instruction + "\n\n");
    }
    for i := 0 to |history|
      invariant conversation == SystemBlock(instruction) + HistoryText(history[..i])
    {
      var prefix := if history[i].role == UserRole then HumanPrefix else AssistantPrefix;
      var line := prefix + history[i].parts + "\n";
      assert history[..i + 1] == history[..i] + [history[i]];
      HistoryTextSnoc(history[..i], history[i]);
      Associative(SystemBlock(instruction), HistoryText(history[..i]), line);
      conversation := conversation + line;
    }
    assert history[..|history|] == history;
    conversation := conversation + (HumanPrefix + msg + AssistantCue);
  }

  /** The lines of a user turn and of the model's reply are the question whose open cue
      is completed by a space, the reply and a newline. */
  lemma ExchangeLines(msg: string, reply: string)
    ensures TurnLine(Turn(UserRole, msg)) + TurnLine(Turn(ModelRole, reply)) == Question(msg) + " " + reply + "\n"
  {
    assert "\n" + ("Assistant: " + reply + "\n") == "\nAssistant:" + " " + reply + "\n" by {
      assert "\n" + "Assistant: " == "\nAssistant:" + " ";
    }
  }

  /** Proof helper, not a property of the application: concatenation is associative. */
  lemma Associative(a: string, b: string, c: string)
    ensures (a + b) + c == a + (b + c)
  {
  }

  /** The history text of a concatenation is the concatenation of the history texts. */
  lemma {:induction false} HistoryTextAppend(h1: seq<Turn>, h2: seq<Turn>)
    ensures HistoryText(h1 + h2) == HistoryText(h1) + HistoryText(h2)
  {
    if |h1| == 0 {
      assert h1 + h2 == h2;
    } else {
      assert (h1 + h2)[1..] == h1[1..] + h2;
      HistoryTextAppend(h1[1..], h2);
    }
  }

  /** Appending one turn appends exactly its line. */
  lemma HistoryTextSnoc(history: seq<Turn>, t: Turn)
    ensures HistoryText(history + [t]) == HistoryText(history) + TurnLine(t)
  {
    HistoryTextAppend(history, [t]);
    assert [t][1..] == [];
  }

  /** With no instruction and no history, the transcript is the question alone. */
  lemma BareTranscript(msg: string)
    ensures TranscriptOf("", [], msg) == "Human: " + msg + "\nAssistant:"
  {
  }

  /** The transcript starts with the system block exactly when there is an instruction. */
  lemma TranscriptStartsWithSystem(instruction: string, history: seq<Turn>, msg: string)
    ensures instruction != "" ==>
      TranscriptOf(instruction, history, msg)[..|instruction| + 10] == "System: " + instruction + "\n\n"
    ensures instruction == "" ==>
      TranscriptOf(instruction, history, msg) == HistoryText(history) + "Human: " + msg + "\nAssistant:"
  {
    if instruction != "" {
      var p := "System: " + instruction + "\n\n";
      assert |p| == |instruction| + 10;
      assert TranscriptOf(instruction, history, msg) == p + (HistoryText(history) + Question(msg));
    }
  }

  /**
   * After a successful send of msg answered by reply, the next transcript (for a later
   * message next) extends the one that was sent: the open cue is completed with the
   * reply, and the new question follows.
   */
  lemma NextTranscriptExtends(instruction: string, history: seq<Turn>, msg: string, reply: string, next: string)
    ensures TranscriptOf(instruction, history + [Turn(UserRole, msg), Turn(ModelRole, reply)], next)
      == TranscriptOf(instruction, history, msg) + " " + reply + "\n" + Question(next)
  {
    var u, m := Turn(UserRole, msg), Turn(ModelRole, reply);
    assert history + [u, m] == (history + [u]) + [m];
    HistoryTextSnoc(history + [u], m);
    HistoryTextSnoc(history, u);
    var sb, ht, q := SystemBlock(instruction), HistoryText(history), Question(next);
    var lu, lm := TurnLine(u), TurnLine(m);
    ExchangeLines(msg, reply);
    var done := Question(msg) + " " + reply + "\n";
    assert lu + lm == done;
    calc {
      TranscriptOf(instruction, history + [u, m], next);
      sb + ((ht + lu) + lm) + q;
      { Associative(ht, lu, lm); }
      sb + (ht + done) + q;
      { Associative(sb, ht, done); }
      ((sb + ht) + done) + q;
      { assert done == (Question(msg) + " ") + reply + "\n"; }
      TranscriptOf(instruction, history, msg) + " " + reply + "\n" + q;
    }
  }
}
