/** The Buildkite log-group writer (pkg/buildkite/group/manager.go). Output
    goes to a writer, modelled as a text buffer, or to the discard sink that
    a nil writer selects. `fmt.Sprintf` for the `*F` variants is a
    parameter. */
module LogGroup {

  /** A writer that keeps what is written to it. */
  class Buffer {
    var text: string

    constructor ()
      ensures text == ""
    {
      text := "";
    }
  }

  /** Where the manager writes: nowhere (`io.Discard`) or to a buffer. */
  datatype Sink = Discard | To(buffer: Buffer)

  /** `LogGroupType` markers. */
  const ClosedMarker: string := "---"
  const OpenMarker: string := "+++"
  const MutedMarker: string := "~~~"

  /** The line `group` writes: the marker, a space, the title. */
  function GroupLine(marker: string, title: string): (line: string)
    ensures |line| == |marker| + 1 + |title| + 1
    ensures line[..|marker|] == marker && line[|marker|] == ' '
    ensures line[|marker| + 1..|line| - 1] == title && line[|line| - 1] == '\n'
  {
    marker + " " + title + "\n"
  }

  const CurrentLine: string := "^^^ +++\n"

  /** `fmt.Sprintf` on a format and its arguments. */
  type Sprintf<-A> = (string, seq<A>) -> string

  /** The manager (`config`) and its writer. */
  class Manager {
    var sink: Sink

    /** The buffer written to, if any. */
    function Target(): set<Buffer>
      reads this
    {
      if sink.To? then {sink.buffer} else {}
    }

    /** `NewLogGroupManager`: a nil writer selects the discard sink. */
    constructor (w: Sink)
      ensures sink == w
    {
      sink := w;
    }

    /** Append a line to the current writer. */
    method Write(line: string)
      modifies Target()
      ensures sink.To? ==> sink.buffer.text == old(sink.buffer.text) + line
    {
      if sink.To? {
        sink.buffer.text := sink.buffer.text + line;
      }
    }

    /** `Open`: an expanded group. */
    method Open(title: string)
      modifies Target()
      ensures sink.To? ==> sink.buffer.text == old(sink.buffer.text) + GroupLine(OpenMarker, title)
    {
      Write(GroupLine(OpenMarker, title));
    }

    /** `Closed`: a collapsed group. */
    method Closed(title: string)
      modifies Target()
      ensures sink.To? ==> sink.buffer.text == old(sink.buffer.text) + GroupLine(ClosedMarker, title)
    {
      Write(GroupLine(ClosedMarker, title));
    }

    /** `Muted`: a de-emphasised group. */
    method Muted(title: string)
      modifies Target()
      ensures sink.To? ==> sink.buffer.text == old(sink.buffer.text) + GroupLine(MutedMarker, title)
    {
      Write(GroupLine(MutedMarker, title));
    }

    /** `OpenF`: `Open` on the formatted title. */
    method OpenF<A>(sprintf: Sprintf<A>, format: string, args: seq<A>)
      modifies Target()
      ensures sink.To? ==> sink.buffer.text == old(sink.buffer.text) + GroupLine(OpenMarker, sprintf(format, args))
    {
      Open(sprintf(format, args));
    }

    /** `ClosedF`: `Closed` on the formatted title. */
    method ClosedF<A>(sprintf: Sprintf<A>, format: string, args: seq<A>)
      modifies Target()
      ensures sink.To? ==> sink.buffer.text == old(sink.buffer.text) + GroupLine(ClosedMarker, sprintf(format, args))
    {
      Closed(sprintf(format, args));
    }

    /** `MutedF`: `Muted` on the formatted title. */
    method MutedF<A>(sprintf: Sprintf<A>, format: string, args: seq<A>)
      modifies Target()
      ensures sink.To? ==> sink.buffer.text == old(sink.buffer.text) + GroupLine(MutedMarker, sprintf(format, args))
    {
      Muted(sprintf(format, args));
    }

    /** `OpenCurrent`: expand the previous group. */
    method OpenCurrent()
      modifies Target()
      ensures sink.To? ==> sink.buffer.text == old(sink.buffer.text) + CurrentLine
    {
      Write(CurrentLine);
    }

    /** `SetOutput`: switch writers (nil selects the discard sink); what was
        written before stays where it was. */
    method SetOutput(w: Sink) returns (m: Manager)
      modifies this
      ensures sink == w && m == this
    {
      sink := w;
      m := this;
    }
  }

  /** Example: groups written one after another accumulate in call order. */
  method Accumulate() returns (text: string)
    ensures text == "+++ build\n--- test\n~~~ cleanup\n^^^ +++\n"
  {
    var b := new Buffer();
    var g := new Manager(To(b));
    g.Open("build");
    assert b.text == "+++ build\n";
    g.Closed("test");
    assert b.text == "+++ build\n--- test\n";
    g.Muted("cleanup");
    assert b.text == "+++ build\n--- test\n~~~ cleanup\n";
    g.OpenCurrent();
    text := b.text;
  }

  /** Example: after the writer is switched to the discard sink, later groups write
      nothing, and the earlier writer keeps only what it had. */
  method DiscardAfterSetOutput() returns (before: string, after: string)
    ensures before == "+++ one\n" && after == before
  {
    var b := new Buffer();
    var g := new Manager(To(b));
    g.Open("one");
    before := b.text;
    var same := g.SetOutput(Discard);
    same.Open("two");
    same.OpenCurrent();
    after := b.text;
  }
}
