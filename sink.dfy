/** The open text file the serializer writes to, seen as the sequence of
    `write` calls made so far: one entry per call, kept without the newline
    the call ends in. An entry is one line of the file as long as the text
    written (a name, the notes) holds no newline of its own. */
module Sink {

  class Hy8File {
    var lines: seq<string>

    constructor ()
      ensures lines == []
    {
      lines := [];
    }

    /** `hy8_file.write(line + '\n')`. */
    method Write(line: string)
      modifies this
      ensures lines == old(lines) + [line]
    {
      lines := lines + [line];
    }

    /** A collaborator that writes a whole block of lines, one per call. */
    method WriteLines(block: seq<string>)
      modifies this
      ensures lines == old(lines) + block
    {
      lines := lines + block;
    }
  }
}
