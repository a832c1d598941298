/** The log pane and the stream adapter that writes into it. */
module OutputCapture {

  /** The text shown by a sequence of insertions, in order. */
  function Join(chunks: seq<string>): string
  {
    if chunks == [] then "" else chunks[0] + Join(chunks[1..])
  }

  /** Inserting more pieces extends the shown text by exactly their text. */
  lemma {:induction false} JoinAppend(chunks: seq<string>, more: seq<string>)
    ensures Join(chunks + more) == Join(chunks) + Join(more)
    decreases |chunks|
  {
    if chunks == [] {
      assert chunks + more == more;
    } else {
      assert (chunks + more)[1..] == chunks[1..] + more;
      JoinAppend(chunks[1..], more);
    }
  }

  /** The text shown before further insertions is a prefix of the text after. */
  lemma ShownTextGrows(chunks: seq<string>, more: seq<string>)
    ensures Join(chunks) <= Join(chunks + more)
  {
    JoinAppend(chunks, more);
  }

  /** The log pane. The user cannot edit it; the front-end only ever inserts at its end. */
  class Textbox {
    /** Every piece of text inserted so far, oldest first. */
    var chunks: seq<string>

    constructor ()
      ensures chunks == []
    {
      chunks := [];
    }

    /** The text on display. */
    function Text(): string
      reads this
    {
      Join(chunks)
    }

    /** Insert a piece of text at the end. */
    method Insert(s: string)
      modifies this
      ensures chunks == old(chunks) + [s]
      ensures Text() == old(Text()) + s
    {
      JoinAppend(chunks, [s]);
      assert Join([s]) == s + Join([]);
      chunks := chunks + [s];
    }
  }

  /** A stand-in for a standard stream that writes into a log pane. */
  class OutputRedirector {
    const textWidget: Textbox
    /** Reported to callers that ask a stream for its encoding; nothing uses it. */
    const encoding: string

    constructor (textWidget: Textbox)
      ensures this.textWidget == textWidget
      ensures encoding == "utf-8"
    {
      this.textWidget := textWidget;
      encoding := "utf-8";
    }

    /** Append the text, verbatim, to the end of the pane. Fragments of lines
        are welcome: nothing is buffered or split. */
    method Write(s: string)
      modifies textWidget
      ensures textWidget.chunks == old(textWidget.chunks) + [s]
      ensures textWidget.Text() == old(textWidget.Text()) + s
    {
      textWidget.Insert(s);
    }

    /** Nothing is buffered, so there is nothing to flush. */
    method Flush()
    {
    }
  }
}
