/**
 * The tools offered to the chat assistant (Agent.py): a die roll and the
 * transcript of recent messages. Fetching the messages is a storage call
 * outside this model; they arrive here as a sequence.
 */
module AgentTools {
  import opened Wrappers
  import opened Text
  import opened Models

  /** `f"{message.sender.username}: {message.content}"` */
  function MessageLine(m: Message): string
  {
    m.sender.username + ": " + m.content
  }

  /** One line per message, in the order given. */
  function MessageLines(messages: seq<Message>): (lines: seq<string>)
    ensures |lines| == |messages|
    ensures forall i :: 0 <= i < |messages| ==> lines[i] == MessageLine(messages[i])
    decreases |messages|
  {
    if |messages| == 0 then [] else [MessageLine(messages[0])] + MessageLines(messages[1..])
  }

  /** What `get_recent_messages` returns: the message lines joined with newlines. */
  function Transcript(messages: seq<Message>): string
  {
    Join(MessageLines(messages), "\n")
  }

  /** No message gives the empty string. */
  lemma EmptyTranscript()
    ensures Transcript([]) == ""
  {
  }

  /**
   * When no username or content spans lines, the transcript reads back as
   * exactly one line per message, in order, `username: content`, with no
   * trailing empty line.
   */
  lemma TranscriptLines(messages: seq<Message>)
    requires |messages| >= 1
    requires forall i :: 0 <= i < |messages| ==>
      '\n' !in messages[i].sender.username && '\n' !in messages[i].content
    ensures var lines := Split(Transcript(messages), '\n');
      && |lines| == |messages|
      && forall i :: 0 <= i < |messages| ==>
           lines[i] == messages[i].sender.username + ": " + messages[i].content
  {
    var lines := MessageLines(messages);
    forall i | 0 <= i < |lines| ensures '\n' !in lines[i] {
      var u, c := messages[i].sender.username, messages[i].content;
      assert '\n' !in ": ";
      assert lines[i] == u + ": " + c;
    }
    SplitJoin(lines, '\n');
  }

  /** Only sender names and contents matter: the `text` field is never shown. */
  lemma TranscriptIgnoresText(messages: seq<Message>, others: seq<Message>)
    requires |messages| == |others|
    requires forall i :: 0 <= i < |messages| ==>
      messages[i].sender.username == others[i].sender.username && messages[i].content == others[i].content
    ensures Transcript(messages) == Transcript(others)
  {
    assert MessageLines(messages) == MessageLines(others);
  }

  /**
   * `roll`: a draw of `random.randint(1, 6)`; the bounds the caller passes are
   * not used.
   */
  method Roll(minValue: int, maxValue: int) returns (r: int)
    ensures 1 <= r <= 6
  {
    r :| 1 <= r <= 6;
  }

  /** Asked for a roll between 10 and 20, `roll` always answers below 10. */
  method RollBelowRequestedRange() returns (r: int)
    ensures r < 10
  {
    r := Roll(10, 20);
  }

  /**
   * A roll as documented: `random.randint(min_value, max_value)`, which has
   * no value (raises) when the bounds are crossed.
   */
  method RollBetween(minValue: int, maxValue: int) returns (r: Option<int>)
    ensures r.Some? <==> minValue <= maxValue
    ensures r.Some? ==> minValue <= r.value <= maxValue
  {
    if minValue > maxValue {
      return None;
    }
    var v :| minValue <= v <= maxValue;
    r := Some(v);
  }
}
