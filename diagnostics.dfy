/** The host's message sink, `dia.message(level, text)`, as a log. */
module Diagnostics {

  const NoticeLevel: int := 0
  const WarningLevel: int := 1
  const ErrorLevel: int := 2

  datatype Diagnostic = Diagnostic(level: int, text: string)

  function Warning(text: string): Diagnostic
  {
    Diagnostic(WarningLevel, text)
  }

  class Sink {
    var messages: seq<Diagnostic>

    constructor ()
      ensures messages == []
    {
      messages := [];
    }

    /** `dia.message(level, text)`. */
    method Message(level: int, text: string)
      modifies this
      ensures messages == old(messages) + [Diagnostic(level, text)]
    {
      messages := messages + [Diagnostic(level, text)];
    }
  }
}
