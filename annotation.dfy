/**
 * Annotation replay (src/sdl/annotation.py): the messages of a finished
 * conversation are fed one by one to an annotator through a bounded window;
 * each message enters the window before the annotator speaks, so every
 * annotation sees the message it is about.
 */
module Annotation {
  import opened Window
  import opened Util
  import opened Actors

  /** A transcript entry of the conversation being annotated: speaker and message. */
  type Entry = (string, string)

  /** The annotator's `speak`: its reply to a window. */
  type Reply = seq<string> -> string

  lemma FormattedPrefix(fmt: Formatter, logs: seq<Entry>, k: nat)
    requires k < |logs|
    ensures Formatted(fmt, logs[..k + 1]) == Formatted(fmt, logs[..k]) + [fmt(logs[k].0, logs[k].1)]
  {
    assert Formatted(fmt, logs[..k + 1]) == Formatted(fmt, logs[..k]) + [fmt(logs[k].0, logs[k].1)];
  }

  /** The deque after the first `k` inputs were appended to it, one `append` at a time. */
  function WindowAfter(fmt: Formatter, cap: nat, logs: seq<Entry>, k: nat): seq<string>
    requires k <= |logs|
  {
    if k == 0 then [] else Push(WindowAfter(fmt, cap, logs, k - 1), fmt(logs[k - 1].0, logs[k - 1].1), cap)
  }

  /** The deque holds the latest `cap` formatted inputs, however many were appended. */
  lemma {:induction false} WindowAfterIsLast(fmt: Formatter, cap: nat, logs: seq<Entry>, k: nat)
    requires k <= |logs|
    ensures WindowAfter(fmt, cap, logs, k) == Last(cap, Formatted(fmt, logs[..k]))
  {
    if k == 0 {
      assert logs[..0] == [];
    } else {
      var s := Formatted(fmt, logs[..k - 1]);
      var x := fmt(logs[k - 1].0, logs[k - 1].1);
      WindowAfterIsLast(fmt, cap, logs, k - 1);
      FormattedPrefix(fmt, logs, k - 1);
      PushLast(cap, s, x);
      calc {
        WindowAfter(fmt, cap, logs, k);
        Push(WindowAfter(fmt, cap, logs, k - 1), x, cap);
        Push(Last(cap, s), x, cap);
        Last(cap, s + [x]);
      }
    }
  }

  /** What the annotator is shown for input `k`: the window right after the k-th message was appended. */
  function Shown(fmt: Formatter, cap: nat, logs: seq<Entry>, k: nat): seq<string>
    requires k < |logs|
  {
    WindowAfter(fmt, cap, logs, k + 1)
  }

  /** The entries the replay has appended after its first `k` inputs: each raw message with the reply to its window. */
  function Annotated(reply: Reply, fmt: Formatter, cap: nat, logs: seq<Entry>, k: nat): (r: seq<Entry>)
    requires k <= |logs|
    ensures |r| == k
  {
    if k == 0 then [] else Annotated(reply, fmt, cap, logs, k - 1) + [(logs[k - 1].1, reply(Shown(fmt, cap, logs, k - 1)))]
  }

  /** The entries one replay appends, one per input. */
  function Annotations(reply: Reply, fmt: Formatter, cap: nat, logs: seq<Entry>): (r: seq<Entry>)
    ensures |r| == |logs|
  {
    Annotated(reply, fmt, cap, logs, |logs|)
  }

  /** Entry k of a replay pairs the k-th raw message with the annotator's reply to what it was shown. */
  lemma {:induction false} AnnotationAt(reply: Reply, fmt: Formatter, cap: nat, logs: seq<Entry>, k: nat, n: nat)
    requires k < n <= |logs|
    ensures Annotated(reply, fmt, cap, logs, n)[k] == (logs[k].1, reply(Shown(fmt, cap, logs, k)))
  {
    if k < n - 1 {
      AnnotationAt(reply, fmt, cap, logs, k, n - 1);
    }
  }

  /**
   * The window shown for input k holds the latest `min(cap, k + 1)` formatted
   * inputs in order, the k-th one last.
   */
  lemma ShownWindow(fmt: Formatter, cap: nat, logs: seq<Entry>, k: nat)
    requires k < |logs|
    ensures var w := Shown(fmt, cap, logs, k);
      && |w| == Min(cap, k + 1) <= cap
      && (forall j | 0 <= j < |w| :: w[j] == fmt(logs[k + 1 - |w| + j].0, logs[k + 1 - |w| + j].1))
      && (cap > 0 ==> w[|w| - 1] == fmt(logs[k].0, logs[k].1))
  {
    var f := Formatted(fmt, logs[..k + 1]);
    var w := Shown(fmt, cap, logs, k);
    WindowAfterIsLast(fmt, cap, logs, k + 1);
    assert w == f[|f| - |w|..];
    forall j | 0 <= j < |w|
      ensures w[j] == fmt(logs[k + 1 - |w| + j].0, logs[k + 1 - |w| + j].1)
    {
      assert w[j] == f[k + 1 - |w| + j];
    }
  }

  /** The `ctx_length` and `logs` parts of `to_dict`, and `annotator_prompt`. */
  datatype AnnotationDoc = AnnotationDoc(ctxLength: int, annotatorPrompt: string, logs: seq<Entry>)

  class AnnotationConv {
    const annotator: Actor
    /** The transcript read from the input file; the replay only reads it. */
    const convLogs: seq<Entry>
    const historyCtxLen: int
    const fill: Wrapper
    var annotationLogs: seq<Entry>
    /** `format_chat_message` over `fill`. */
    ghost const format: Formatter
    /** The annotator's `speak`. */
    ghost const speak: Reply

    ghost predicate Valid() {
      && (forall u, m {:trigger FormatChatMessage(fill, u, m)} :: format(u, m) == FormatChatMessage(fill, u, m))
      && (forall h {:trigger Speak(annotator, h)} :: speak(h) == Speak(annotator, h))
    }

    /** `__init__`, with the decoded input transcript given in place of its file path. */
    constructor (annotator: Actor, convLogs: seq<Entry>, historyCtxLen: int, fill: Wrapper)
      ensures this.annotator == annotator && this.convLogs == convLogs
      ensures this.historyCtxLen == historyCtxLen && this.fill == fill
      ensures annotationLogs == [] && Valid()
    {
      this.annotator := annotator;
      this.convLogs := convLogs;
      this.historyCtxLen := historyCtxLen;
      this.fill := fill;
      annotationLogs := [];
      format := (u: string, m: string) => FormatChatMessage(fill, u, m);
      speak := (h: seq<string>) => Speak(annotator, h);
    }

    /**
     * `begin_annotation`: a negative `history_ctx_len` makes the deque
     * constructor fail before anything happens; otherwise every input message
     * is appended to a fresh window and annotated. There is no re-run guard:
     * a second call appends a second replay.
     */
    method BeginAnnotation() returns (ok: bool)
      requires Valid()
      modifies this
      ensures ok <==> historyCtxLen >= 0
      ensures !ok ==> annotationLogs == old(annotationLogs)
      ensures ok ==> annotationLogs == old(annotationLogs) + Annotations(speak, format, historyCtxLen as nat, convLogs)
    {
      if historyCtxLen < 0 {
        return false;
      }
      Replay(historyCtxLen);
      return true;
    }

    /** The loop of `begin_annotation` over a window of capacity `cap`. */
    method Replay(cap: nat)
      requires Valid()
      modifies this
      ensures annotationLogs == old(annotationLogs) + Annotations(speak, format, cap, convLogs)
    {
      var ctxHistory: seq<string> := [];
      var i := 0;
      while i < |convLogs|
        invariant 0 <= i <= |convLogs|
        invariant ctxHistory == WindowAfter(format, cap, convLogs, i)
        invariant annotationLogs == old(annotationLogs) + Annotated(speak, format, cap, convLogs, i)
      {
        ctxHistory := ReplayStep(cap, ctxHistory, i, old(annotationLogs));
        i := i + 1;
      }
    }

    /** One pass of the loop: message `i` enters the window, then the annotator replies to the window. */
    method ReplayStep(cap: nat, ctxHistory: seq<string>, i: nat, ghost earlier: seq<Entry>) returns (next: seq<string>)
      requires Valid() && i < |convLogs|
      requires ctxHistory == WindowAfter(format, cap, convLogs, i)
      requires annotationLogs == earlier + Annotated(speak, format, cap, convLogs, i)
      modifies this
      ensures next == WindowAfter(format, cap, convLogs, i + 1)
      ensures annotationLogs == earlier + Annotated(speak, format, cap, convLogs, i + 1)
    {
      var (username, message) := convLogs[i];
      var formattedMessage := FormatChatMessage(fill, username, message);
      assert formattedMessage == format(username, message);
      next := Push(ctxHistory, formattedMessage, cap);
      assert next == Shown(format, cap, convLogs, i);
      var annotation := Speak(annotator, next);
      assert annotation == speak(next);
      ghost var before := Annotated(speak, format, cap, convLogs, i);
      assert (message, annotation) == (convLogs[i].1, speak(Shown(format, cap, convLogs, i)));
      annotationLogs := annotationLogs + [(message, annotation)];
      assert (earlier + before) + [(message, annotation)] == earlier + (before + [(message, annotation)]);
    }

    /** The configured `ctx_length` (not a window size), the annotator's prompt and the annotations. */
    function ToDict(): (d: AnnotationDoc)
      reads this
      ensures d.ctxLength == historyCtxLen && d.logs == annotationLogs
      ensures d.annotatorPrompt == SystemPrompt(annotator).content
    {
      AnnotationDoc(historyCtxLen, Describe(annotator), annotationLogs)
    }
  }
}
