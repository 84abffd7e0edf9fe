/** `format_chat_message` (src/sdl/util.py). */
module Util {
  import opened Text

  /** `textwrap.fill(·, 70)`: a library primitive the model leaves uninterpreted. */
  type Wrapper = string -> string

  /** How a (speaker, message) pair is rendered for a history window: `format_chat_message` over some `fill`. */
  type Formatter = (string, string) -> string

  /** The formatted form of each (speaker, message) entry, in order. */
  function Formatted(fmt: Formatter, logs: seq<(string, string)>): (w: seq<string>)
    ensures |w| == |logs|
    ensures forall i | 0 <= i < |logs| :: w[i] == fmt(logs[i].0, logs[i].1)
  {
    seq(|logs|, i requires 0 <= i < |logs| => fmt(logs[i].0, logs[i].1))
  }

  lemma FormattedSnoc(fmt: Formatter, logs: seq<(string, string)>, e: (string, string))
    ensures Formatted(fmt, logs + [e]) == Formatted(fmt, logs) + [fmt(e.0, e.1)]
  {
    assert Formatted(fmt, logs + [e]) == Formatted(fmt, logs) + [fmt(e.0, e.1)];
  }

  /** The header a non-blank message is filed under; it is also the cue a user prompt ends with. */
  function PostedHeader(username: string): string {
    "User " + username + " posted:"
  }

  /**
   * The prompt-friendly form of a message: a "posted" header and the wrapped
   * text when the message has non-white-space content, a "said nothing"
   * placeholder otherwise.
   */
  function FormatChatMessage(fill: Wrapper, username: string, message: string): (r: string)
    ensures r != [] && (r[0] == 'U' || r[0] == '<')
    ensures |Strip(r)| != 0
    ensures "User " <= r <==> |Strip(message)| != 0
    ensures |Strip(message)| != 0 ==> PostedHeader(username) + "\n" <= r
    ensures |Strip(message)| != 0 ==> r[|PostedHeader(username)| + 1..] == fill(message)
    ensures |Strip(message)| == 0 ==> r == "<" + username + " said nothing>"
  {
    var r := if |Strip(message)| != 0 then PostedHeader(username) + "\n" + fill(message)
             else "<" + username + " said nothing>";
    NonSpaceHeadNotBlank(r);
    assert |Strip(message)| != 0 ==> r[|PostedHeader(username)| + 1..] == fill(message);
    assert |Strip(message)| == 0 ==> r[0] == '<' && "User "[0] == 'U';
    r
  }
}
