/** The output file the printers write to, reduced to the text written so far. */
module Sink {

  class Buffer {
    var text: string

    constructor()
      ensures text == ""
    {
      text := "";
    }

    /** Appends `s`; nothing written before changes. */
    method Write(s: string)
      modifies this
      ensures text == old(text) + s
    {
      text := text + s;
    }
  }
}
