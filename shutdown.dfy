/**
 * The message `close` throws: one line per failed step, the channel's
 * before the connection's.
 */
module Shutdown {

  const CloseFailurePrefix := "There was an error while trying to close "
  const ChannelCloseFailure := CloseFailurePrefix + "the channel"
  const ConnectionCloseFailure := CloseFailurePrefix + "connection"

  /** `System.lineSeparator()`, fixed to one platform's value. */
  const LineSeparator := "\n"

  /** `RabbitMQConnectionException`, the only failure `close` reports. */
  datatype ShutdownError = RabbitMQConnectionException(message: string)

  /** The descriptions of the failed close steps, channel first. */
  function FailureDescriptions(channelFailed: bool, connectionFailed: bool): seq<string>
  {
    (if channelFailed then [ChannelCloseFailure] else [])
    + (if connectionFailed then [ConnectionCloseFailure] else [])
  }

  /** Lines joined by the separator, none after the last. */
  function JoinLines(lines: seq<string>): string
  {
    if |lines| == 0 then ""
    else if |lines| == 1 then lines[0]
    else lines[0] + LineSeparator + JoinLines(lines[1..])
  }

  /** The position of the first separator in `s`, or `|s|` when there is none. */
  function SeparatorIndex(s: string): (i: nat)
    ensures i <= |s|
    ensures forall k :: 0 <= k < i ==> s[k] != '\n'
    ensures i < |s| ==> s[i] == '\n'
  {
    if |s| == 0 || s[0] == '\n' then 0 else 1 + SeparatorIndex(s[1..])
  }

  /** A text cut at each separator. */
  function SplitLines(s: string): (lines: seq<string>)
    ensures |lines| > 0
    decreases |s|
  {
    var i := SeparatorIndex(s);
    if i == |s| then [s] else [s[..i]] + SplitLines(s[i + 1..])
  }

  predicate SingleLine(line: string)
  {
    '\n' !in line
  }

  lemma {:induction false} SeparatorAfterLine(line: string, rest: string)
    requires SingleLine(line)
    ensures SeparatorIndex(line + LineSeparator + rest) == |line|
  {
    if |line| > 0 {
      assert line[0] in line;
      assert '\n' !in line[1..] by {
        forall k | 0 <= k < |line| - 1 ensures line[1..][k] != '\n' {
          assert line[1..][k] == line[k + 1] && line[k + 1] in line;
        }
      }
      assert (line + LineSeparator + rest)[1..] == line[1..] + LineSeparator + rest;
      SeparatorAfterLine(line[1..], rest);
    }
  }

  /** Splitting a joined text gives the lines back, when none holds a separator. */
  lemma {:induction false} SplitJoin(lines: seq<string>)
    requires |lines| > 0
    requires forall j :: 0 <= j < |lines| ==> SingleLine(lines[j])
    ensures SplitLines(JoinLines(lines)) == lines
  {
    if |lines| > 1 {
      var s := JoinLines(lines);
      SeparatorAfterLine(lines[0], JoinLines(lines[1..]));
      assert s[..|lines[0]|] == lines[0];
      assert s[|lines[0]| + 1..] == JoinLines(lines[1..]);
      SplitJoin(lines[1..]);
      assert lines == [lines[0]] + lines[1..];
    } else {
      assert SingleLine(lines[0]);
      assert SeparatorIndex(lines[0]) == |lines[0]|;
    }
  }

  /**
   * The message lists exactly the failed steps, one per line, channel
   * first; it is empty exactly when nothing failed, which is when `close`
   * returns normally.
   */
  lemma ShutdownMessageLists(channelFailed: bool, connectionFailed: bool)
    ensures var message := JoinLines(FailureDescriptions(channelFailed, connectionFailed));
            && (message == "" <==> !channelFailed && !connectionFailed)
            && (channelFailed || connectionFailed ==>
                  SplitLines(message) == FailureDescriptions(channelFailed, connectionFailed))
  {
    var d := FailureDescriptions(channelFailed, connectionFailed);
    if channelFailed || connectionFailed {
      assert SingleLine(CloseFailurePrefix);
      SplitJoin(d);
    }
  }

  /** The three shapes of the message. */
  lemma ShutdownMessageShapes(channelFailed: bool, connectionFailed: bool)
    ensures var message := JoinLines(FailureDescriptions(channelFailed, connectionFailed));
            && (channelFailed && !connectionFailed ==> message == ChannelCloseFailure)
            && (!channelFailed && connectionFailed ==> message == ConnectionCloseFailure)
            && (channelFailed && connectionFailed ==>
                  message == ChannelCloseFailure + LineSeparator + ConnectionCloseFailure)
  {
  }
}
